/** What one step of the CPU promises: PUSH and POP undo each other, POP AF clears the low nibble of F,
  * EI takes effect one instruction late, PC moves by the instruction's length, a conditional branch
  * takes the same cycles whatever the table held before, relative jumps are two's complement, every
  * cycle the step reports is handed to the timers at normal speed, and reset_cpu's register values. */
module GbCpuProps {
  import Alu = GbAlu
  import opened GbOpcodes
  import opened GbCpuSpec

  // ---------------------------------------------------------------- register pairs

  /** Writing a pair back with its own value changes nothing; F keeps its flags through the byte. */
  lemma PairRoundTrip(r: Regs, p: Pair)
    ensures Set16(r, p, Get16(r, p)) == r
  {
    if p == AF {
      Alu.FlagsRoundTrip(r.flags, 0);
    }
  }

  /** A pair reads back what was written to it, except that AF loses the low nibble of F. */
  lemma PairWriteRead(r: Regs, p: Pair, w: Word)
    ensures Get16(Set16(r, p, w), p) == if p == AF then w - w % 0x10 else w
  {
    var hi, lo := w / 0x100, w % 0x100;
    assert hi * 0x100 + lo == w;
    if p == AF {
      Alu.FlagsRoundTrip(r.flags, lo);
      assert lo % 0x10 == w % 0x10;
    }
  }

  // ---------------------------------------------------------------- the stack

  /** A word written at an address reads back from there. */
  lemma WriteRead16(s: State, addr: Word, w: Word)
    requires Valid(s)
    ensures Read16(Write16(s, addr, w), addr) == w
  {
  }

  /** PUSH rr then POP rr: every register, SP included, is as before; only memory below SP changed. */
  lemma PushThenPop(s: State, p: Pair)
    requires Valid(s) && p != SP
    ensures var pushed := RunStack(s, Push(p));
            RunStack(pushed, Pop(p)) == pushed.(reg := s.reg)
  {
    var pushed := RunStack(s, Push(p));
    var sp := (s.reg.sp - 2) % 0x10000;
    assert pushed.reg == s.reg.(sp := sp);
    WriteRead16(s.(reg := s.reg.(sp := sp)), sp, Get16(s.reg, p));
    assert Read16(pushed, sp) == Get16(s.reg, p);
    PairRoundTrip(s.reg, p);
    assert Set16(pushed.reg, p, Get16(s.reg, p)) == s.reg.(sp := sp);
  }

  /** POP AF: A is the high byte popped and F the low byte with its low nibble cleared, so AF read
    * back always has a low nibble of 0. */
  lemma PopAfClearsNibble(s: State)
    requires Valid(s)
    ensures var t := RunStack(s, Pop(AF));
            var w := Read16(s, s.reg.sp);
            Get16(t.reg, AF) == w - w % 0x10 && Get16(t.reg, AF) % 0x10 == 0
            && t.reg.sp == (s.reg.sp + 2) % 0x10000
  {
    PairWriteRead(s.reg, AF, Read16(s, s.reg.sp));
  }

  // ---------------------------------------------------------------- what a handler leaves alone

  /** The sum of the counts handed on. */
  function Total(fed: seq<int>): (n: int)
  {
    if fed == [] then 0 else Total(fed[..|fed| - 1]) + fed[|fed| - 1]
  }

  lemma TotalAppend(fed: seq<int>, n: int)
    ensures Total(fed + [n]) == Total(fed) + n
  {
    assert (fed + [n])[..|fed|] == fed;
  }

  /** A handler that is not a jump, call, return, DI, EI or STOP keeps PC, both interrupt flags and the
    * speed, and either hands nothing on or hands on once what it records in passed. */
  predicate Plain(s: State, t: State)
  {
    t.reg.pc == s.reg.pc && t.ime == s.ime && t.imeTimer == s.imeTimer && t.cgbSpeed == s.cgbSpeed
    && (!s.cgbSpeed ==> (t.fed == s.fed && t.passed == s.passed) || t.fed == s.fed + [t.passed])
  }

  lemma LoadPlain(s: State, i: Instr)
    requires Valid(s) && IsLoad(i)
    ensures Plain(s, RunLoad(s, i))
  {
    if IsLoadMem(i) {
      LoadMemPlain(s, i);
    } else if IsLoadAddr(i) {
      LoadAddrPlain(s, i);
    } else if IsLoadIo(i) {
      LoadIoPlain(s, i);
    } else if IsLoad16(i) {
      Load16Plain(s, i);
    } else {
      StackPlain(s, i);
    }
  }

  lemma ArithPlain(s: State, i: Instr)
    requires Valid(s) && IsArith(i)
    ensures Plain(s, RunArith(s, i))
  {
    if IsAlu8(i) {
      Alu8Plain(s, i);
    } else if IsAlu16(i) {
      Alu16Plain(s, i);
    } else {
      AccumPlain(s, i);
    }
  }

  lemma LoadMemPlain(s: State, i: Instr)
    requires Valid(s) && IsLoadMem(i)
    ensures Plain(s, RunLoadMem(s, i))
  {
    match i
    case Ld(_, _) =>
    case LdMemHlImm =>
    case LdAMem(_) =>
    case LdMemA(_) =>
  }

  lemma LoadAddrPlain(s: State, i: Instr)
    requires Valid(s) && IsLoadAddr(i)
    ensures Plain(s, RunLoadAddr(s, i))
  {
    match i
    case LdANn =>
    case LdNnA =>
    case LdAHl(_) =>
    case LdHlA(_) =>
  }

  lemma LoadIoPlain(s: State, i: Instr)
    requires Valid(s) && IsLoadIo(i)
    ensures Plain(s, RunLoadIo(s, i))
  {
    match i
    case LdhNA =>
    case LdhAN =>
    case LdhAC =>
    case LdhCA =>
  }

  lemma Load16Plain(s: State, i: Instr)
    requires Valid(s) && IsLoad16(i)
    ensures Plain(s, RunLoad16(s, i))
  {
    match i
    case Ld16(_) =>
    case LdSpHl =>
    case LdHlSpN =>
    case LdNnSp =>
  }

  lemma StackPlain(s: State, i: Instr)
    requires Valid(s) && IsStack(i)
    ensures Plain(s, RunStack(s, i))
  {
    match i
    case Push(_) =>
    case Pop(_) =>
  }

  lemma Alu8Plain(s: State, i: Instr)
    requires Valid(s) && IsAlu8(i)
    ensures Plain(s, RunAlu8(s, i))
  {
    match i
    case Alu(_, _) =>
    case Inc(loc) => IncDecPlain(s, loc, true);
    case Dec(loc) => IncDecPlain(s, loc, false);
    case RotA(_) =>
  }

  lemma Alu16Plain(s: State, i: Instr)
    requires Valid(s) && IsAlu16(i)
    ensures Plain(s, RunAlu16(s, i))
  {
    match i
    case AddHl(_) =>
    case AddSpN =>
    case Inc16(_) =>
    case Dec16(_) =>
  }

  lemma AccumPlain(s: State, i: Instr)
    requires Valid(s) && IsAccum(i)
    ensures Plain(s, RunAccum(s, i))
  {
    match i
    case Daa =>
    case Cpl =>
    case Ccf =>
    case Scf =>
  }

  lemma IncDecPlain(s: State, loc: Loc, inc: bool)
    requires Valid(s)
    ensures Plain(s, IncDec(s, loc, inc))
  {
  }

  /** Jumps, calls and returns hand nothing on, and only RETI touches the interrupt flags. */
  lemma FlowQuiet(s: State, i: Instr)
    requires Valid(s) && IsFlow(i)
    ensures var t := RunFlow(s, i);
            t.fed == s.fed && t.passed == s.passed && t.cgbSpeed == s.cgbSpeed && t.ime == s.ime
            && t.imeTimer == (i.Reti? || s.imeTimer)
  {
    if IsJump(i) {
      JumpQuiet(s, i);
    } else {
      CallQuiet(s, i);
    }
  }

  lemma JumpQuiet(s: State, i: Instr)
    requires Valid(s) && IsJump(i)
    ensures var t := RunJump(s, i);
            t.fed == s.fed && t.passed == s.passed && t.cgbSpeed == s.cgbSpeed && t.ime == s.ime
            && t.imeTimer == s.imeTimer
  {
    match i
    case Jp =>
    case JpCond(_) =>
    case JpHl =>
    case Jr =>
    case JrCond(_) =>
  }

  lemma CallQuiet(s: State, i: Instr)
    requires Valid(s) && IsCall(i)
    ensures var t := RunCall(s, i);
            t.fed == s.fed && t.passed == s.passed && t.cgbSpeed == s.cgbSpeed && t.ime == s.ime
            && t.imeTimer == (i.Reti? || s.imeTimer)
  {
    if i.Call? || i.CallCond? || i.Rst? {
      PushQuiet(s, i);
    } else {
      ReturnQuiet(s, i);
    }
  }

  lemma PushQuiet(s: State, i: Instr)
    requires Valid(s) && (i.Call? || i.CallCond? || i.Rst?)
    ensures var t := RunCall(s, i);
            t.fed == s.fed && t.passed == s.passed && t.cgbSpeed == s.cgbSpeed && t.ime == s.ime
            && t.imeTimer == s.imeTimer
  {
    PushKeeps(s, s.reg.pc);
    match i
    case Call =>
    case CallCond(_) =>
    case Rst(_) =>
  }

  /** A push changes only the registers and memory. */
  lemma PushKeeps(s: State, w: Word)
    requires Valid(s)
    ensures var t := PushWord(s, w); t == s.(reg := t.reg, mem := t.mem)
  {
  }

  lemma ReturnQuiet(s: State, i: Instr)
    requires Valid(s) && (i.Ret? || i.RetCond? || i.Reti?)
    ensures var t := RunCall(s, i);
            t.fed == s.fed && t.passed == s.passed && t.cgbSpeed == s.cgbSpeed && t.ime == s.ime
            && t.imeTimer == (i.Reti? || s.imeTimer)
  {
    match i
    case Ret =>
    case RetCond(_) =>
    case Reti =>
  }

  /** NOP, HALT, STOP, DI and EI hand nothing on and keep PC; only DI and EI touch the interrupt flags. */
  lemma ControlQuiet(s: State, i: Instr, canSwitch: bool)
    requires Valid(s)
    ensures var t := RunControl(s, i, canSwitch);
            t.fed == s.fed && t.passed == s.passed && t.reg.pc == s.reg.pc
            && t.ime == (!i.Di? && s.ime) && t.imeTimer == (i.Ei? || (!i.Di? && s.imeTimer))
            && (!i.Stop? ==> t.cgbSpeed == s.cgbSpeed)
  {
    match i
    case Halt =>
    case Stop =>
    case Di =>
    case Ei =>
    case _ =>
  }

  /** A prefixed handler keeps PC and both interrupt flags. */
  lemma ExtQuiet(s: State, i: ExtInstr)
    requires Valid(s) && (i.BitTest? || i.BitRes? || i.BitSet? ==> 0 <= i.bit < 8)
    ensures var t := RunExt(s, i);
            t.reg.pc == s.reg.pc && t.ime == s.ime && t.imeTimer == s.imeTimer && t.passed == s.passed
            && t.cgbSpeed == s.cgbSpeed
  {
    match i.loc {
      case Reg(x) =>
        match i {
          case Shift(_, _) =>
          case BitTest(_, _) =>
          case BitRes(_, _) =>
          case BitSet(_, _) =>
        }
      case MemHL =>
        match i {
          case Shift(_, _) =>
          case BitTest(_, _) =>
          case BitRes(_, _) =>
          case BitSet(_, _) =>
        }
    }
  }

  // ---------------------------------------------------------------- one step

  /** What any main-table handler does to PC, the interrupt flags, the speed and the counts handed on. */
  lemma RunSummary(s: State, i: Instr, canSwitch: bool)
    requires Valid(s)
    ensures var t := Run(s, i, canSwitch);
            t.ime == (!i.Di? && s.ime) && t.imeTimer == (i.Ei? || i.Reti? || (!i.Di? && s.imeTimer))
            && (!IsFlow(i) ==> t.reg.pc == s.reg.pc)
            && (!i.Stop? ==> t.cgbSpeed == s.cgbSpeed)
            && (!s.cgbSpeed ==> (t.fed == s.fed && t.passed == s.passed) || t.fed == s.fed + [t.passed])
  {
    if IsLoad(i) {
      assert Run(s, i, canSwitch) == RunLoad(s, i);
      LoadPlain(s, i);
    } else if IsArith(i) {
      assert Run(s, i, canSwitch) == RunArith(s, i);
      ArithPlain(s, i);
    } else if IsFlow(i) {
      assert Run(s, i, canSwitch) == RunFlow(s, i);
      FlowQuiet(s, i);
    } else {
      assert Run(s, i, canSwitch) == RunControl(s, i, canSwitch);
      ControlQuiet(s, i, canSwitch);
    }
  }

  /** The state a handler starts from: the pending enable promoted and PC past the instruction. */
  lemma Fetched(s: State, skipBug: bool)
    requires Valid(s)
    ensures var s1 := Promote(s);
            var op := Read(s, s.reg.pc);
            var s2 := Advance(s1, op, skipBug);
            s2.reg.flags == s.reg.flags && s2.mem == s.mem
            && s2.ime == (s.ime || s.imeTimer) && !s2.imeTimer && s2.fed == s.fed && s2.passed == s.passed
            && s2.cgbSpeed == s.cgbSpeed && s2.cycles == s.cycles
            && s2.reg.pc == ((if skipBug then (s.reg.pc - 1) % 0x10000 else s.reg.pc) + Words(op)) % 0x10000
  {
    var s1 := Promote(s);
    assert s1.mem == s.mem && s1.reg == s.reg && s1.cycles == s.cycles && s1.fed == s.fed;
    assert Advance(s1, Read(s, s.reg.pc), skipBug) == s1.(reg := s.reg.(pc := NextPc(s.reg.pc, Read(s, s.reg.pc), skipBug)));
  }

  /** One main-table instruction with its closing timer update. */
  lemma MainStep(s: State, op: Byte, i: Instr, canSwitch: bool)
    requires Valid(s)
    ensures var r := ExecMain(s, op, i, canSwitch);
            var t := Run(s, i, canSwitch);
            r.state.ime == (!i.Di? && s.ime) && r.state.imeTimer == (i.Ei? || i.Reti? || (!i.Di? && s.imeTimer))
            && (!IsFlow(i) ==> r.state.reg.pc == s.reg.pc)
            && r.cycles == t.cycles[op] && r.state.passed == 0 && r.state.reg == t.reg
  {
    RunSummary(s, i, canSwitch);
  }

  /** One prefixed instruction with its closing timer update. */
  lemma ExtStep(s: State)
    requires Valid(s)
    ensures var r := ExecExt(s);
            r.state.ime == s.ime && r.state.imeTimer == s.imeTimer && r.state.reg.pc == s.reg.pc
  {
    ExtQuiet(s, ExtDecode(Imm8(s)).operation);
  }

  /** The interrupt flags after exec_opcode: a pending enable has become the master enable unless the
    * instruction was DI, which clears both; only EI and RETI leave an enable pending. */
  lemma ExecIme(s: State, skipBug: bool, canSwitch: bool)
    requires Valid(s)
    ensures var op := Read(s, s.reg.pc);
            var t := Exec(s, skipBug, canSwitch).state;
            t.ime == (op != 0xF3 && (s.ime || s.imeTimer)) && t.imeTimer == (op == 0xFB || op == 0xD9)
  {
    Fetched(s, skipBug);
    var s1 := Promote(s);
    var op := Read(s, s.reg.pc);
    var s2 := Advance(s1, op, skipBug);
    if op != 0xCB {
      SingleEntry(op);
      MainStep(s2, op, Ins(op).operation, canSwitch);
    } else {
      ExtStep(s2);
    }
  }

  /** EI takes effect one instruction late: right after it interrupts are still off, and they are on
    * after the next instruction unless that one is DI. */
  lemma EiDelay(s: State, skipBug: bool, canSwitch: bool, skipBug': bool, canSwitch': bool)
    requires Valid(s) && !s.ime && !s.imeTimer && Read(s, s.reg.pc) == 0xFB
    ensures var t := Exec(s, skipBug, canSwitch).state;
            !t.ime && t.imeTimer
            && (Read(t, t.reg.pc) != 0xF3 ==> Exec(t, skipBug', canSwitch').state.ime)
  {
    ExecIme(s, skipBug, canSwitch);
    var t := Exec(s, skipBug, canSwitch).state;
    ExecIme(t, skipBug', canSwitch');
  }

  /** PC moves past the instruction, from one byte early under the halt bug, except where the handler
    * itself jumps, calls or returns. */
  lemma ExecPc(s: State, skipBug: bool, canSwitch: bool)
    requires Valid(s)
    requires var op := Read(s, s.reg.pc); op == 0xCB || !IsFlow(Ins(op).operation)
    ensures var op := Read(s, s.reg.pc);
            Exec(s, skipBug, canSwitch).state.reg.pc
              == ((if skipBug then (s.reg.pc - 1) % 0x10000 else s.reg.pc) + Words(op)) % 0x10000
  {
    Fetched(s, skipBug);
    var s1 := Promote(s);
    var op := Read(s, s.reg.pc);
    var s2 := Advance(s1, op, skipBug);
    if op != 0xCB {
      MainStep(s2, op, Ins(op).operation, canSwitch);
    } else {
      ExtStep(s2);
    }
  }

  lemma MainHalt(s: State, op: Byte, i: Instr, canSwitch: bool)
    requires Valid(s) && i.Halt?
    ensures ExecMain(s, op, i, canSwitch).state.halted
  {
    assert !IsLoad(i) && !IsArith(i) && !IsFlow(i);
    assert Run(s, i, canSwitch) == RunControl(s, i, canSwitch);
  }

  /** HALT (0x76) leaves the CPU halted. */
  lemma ExecHalt(s: State, skipBug: bool, canSwitch: bool)
    requires Valid(s) && Read(s, s.reg.pc) == 0x76
    ensures Exec(s, skipBug, canSwitch).state.halted
  {
    Fetched(s, skipBug);
    var s1 := Promote(s);
    var op := Read(s, s.reg.pc);
    SingleEntry(op);
    MainHalt(Advance(s1, op, skipBug), op, Ins(op).operation, canSwitch);
  }

  // ---------------------------------------------------------------- conditional branches

  predicate IsCond(i: Instr)
  {
    i.JpCond? || i.JrCond? || i.CallCond? || i.RetCond?
  }

  /** The hardware's cycle counts of the conditional instructions, taken and not taken. */
  function CondCycles(i: Instr, taken: bool): (n: int)
    requires IsCond(i)
  {
    match i
    case JpCond(_) => if taken then 16 else 12
    case JrCond(_) => if taken then 12 else 8
    case CallCond(_) => if taken then 24 else 12
    case RetCond(_) => if taken then 20 else 8
  }

  /** A conditional handler overwrites its own cycles entry, and nothing else of the table. */
  lemma RunCondCycles(s: State, i: Instr, canSwitch: bool)
    requires Valid(s) && IsCond(i)
    ensures Run(s, i, canSwitch).cycles == s.cycles[CondIndex(i) := CondCycles(i, Holds(s.reg, i.cc))]
  {
    assert !IsLoad(i) && !IsArith(i) && IsFlow(i);
    assert Run(s, i, canSwitch) == RunFlow(s, i);
    if i.JpCond? || i.JrCond? {
      JumpCondCycles(s, i);
    } else {
      CallCondCycles(s, i);
    }
  }

  lemma JumpCondCycles(s: State, i: Instr)
    requires Valid(s) && (i.JpCond? || i.JrCond?)
    ensures RunJump(s, i).cycles == s.cycles[CondIndex(i) := CondCycles(i, Holds(s.reg, i.cc))]
  {
  }

  lemma CallCondCycles(s: State, i: Instr)
    requires Valid(s) && (i.CallCond? || i.RetCond?)
    ensures RunCall(s, i).cycles == s.cycles[CondIndex(i) := CondCycles(i, Holds(s.reg, i.cc))]
  {
    if i.CallCond? {
      PushKeeps(s, s.reg.pc);
    }
  }

  /** exec_opcode returns, for a conditional instruction, the count for the branch its flags choose. */
  lemma ExecCondCycles(s: State, skipBug: bool, canSwitch: bool)
    requires Valid(s)
    requires var op := Read(s, s.reg.pc); op != 0xCB && IsCond(Ins(op).operation)
    ensures var i := Ins(Read(s, s.reg.pc)).operation;
            Exec(s, skipBug, canSwitch).cycles == CondCycles(i, Holds(s.reg, i.cc))
  {
    Fetched(s, skipBug);
    var s1 := Promote(s);
    var op := Read(s, s.reg.pc);
    var s2 := Advance(s1, op, skipBug);
    var i := Ins(op).operation;
    CondOwnEntry(op);
    MainStep(s2, op, i, canSwitch);
    RunCondCycles(s2, i, canSwitch);
    assert Holds(s2.reg, i.cc) == Holds(s.reg, i.cc);
  }

  /** JR and JR cc are two bytes long, and neither sits at the prefix byte. */
  lemma RelativeWords(op: Byte)
    requires Ins(op).operation.Jr? || Ins(op).operation.JrCond?
    ensures Words(op) == 2 && op != 0xCB
  {
    var i := Ins(op).operation;
    SingleEntry(op);
    assert op != 0x10 && op != 0xCB;
    RelativeOperand(i);
    WordsMatchOperands(op);
  }

  lemma RelativeOperand(i: Instr)
    requires i.Jr? || i.JrCond?
    ensures OperandBytes(i) == 1
  {
  }

  lemma RunRelative(s: State, i: Instr, canSwitch: bool)
    requires Valid(s) && (i.Jr? || (i.JrCond? && Holds(s.reg, i.cc)))
    ensures Run(s, i, canSwitch).reg.pc == (s.reg.pc + Alu.Signed8(Imm8(s))) % 0x10000
  {
    assert !IsLoad(i) && !IsArith(i) && IsFlow(i) && IsJump(i);
    assert Run(s, i, canSwitch) == RunFlow(s, i);
    assert RunFlow(s, i) == RunJump(s, i);
  }

  /** Where JR lands from a state whose PC is at the opcode: the opcode at `at`, the offset after it. */
  function RelativeTarget(s: State, skipBug: bool): (pc: int)
    requires Valid(s)
  {
    var at := if skipBug then (s.reg.pc - 1) % 0x10000 else s.reg.pc;
    (at + 2 + Alu.Signed8(Read(s, (at + 1) % 0x10000))) % 0x10000
  }

  lemma SameImm8(s: State, s2: State, skipBug: bool)
    requires Valid(s) && Valid(s2) && s2.mem == s.mem
    requires s2.reg.pc == ((if skipBug then (s.reg.pc - 1) % 0x10000 else s.reg.pc) + 2) % 0x10000
    ensures (s2.reg.pc + Alu.Signed8(Imm8(s2))) % 0x10000 == RelativeTarget(s, skipBug)
  {
    var at := if skipBug then (s.reg.pc - 1) % 0x10000 else s.reg.pc;
    var imm := Read(s, (at + 1) % 0x10000);
    var x := Alu.Signed8(imm);
    if at + 2 < 0x10000 {
      assert s2.reg.pc == at + 2;
      assert Imm8(s2) == imm;
    } else {
      assert s2.reg.pc == at + 2 - 0x10000;
      assert Imm8(s2) == imm;
      ShiftMod(s2.reg.pc + x);
    }
  }

  lemma ShiftMod(y: int)
    ensures (y + 0x10000) % 0x10000 == y % 0x10000
  {
  }

  /** The main-table half of ExecRelativeJump. */
  lemma MainRelative(s: State, op: Byte, i: Instr, skipBug: bool, canSwitch: bool)
    requires Valid(s) && Words(op) == 2
    requires i.Jr? || (i.JrCond? && Holds(s.reg, i.cc))
    ensures ExecMain(Advance(Promote(s), op, skipBug), op, i, canSwitch).state.reg.pc == RelativeTarget(s, skipBug)
  {
    var s2 := Advance(Promote(s), op, skipBug);
    assert s2.mem == s.mem && s2.reg == s.reg.(pc := NextPc(s.reg.pc, op, skipBug));
    SameImm8(s, s2, skipBug);
    RunRelative(s2, i, canSwitch);
    MainStep(s2, op, i, canSwitch);
  }

  /** JR and a taken JR cc: the signed byte after the opcode added to the address of the next
    * instruction, in 16 bits; under the halt bug the opcode is taken to sit one byte earlier. */
  lemma ExecRelativeJump(s: State, skipBug: bool, canSwitch: bool)
    requires Valid(s)
    requires var i := Ins(Read(s, s.reg.pc)).operation; i.Jr? || (i.JrCond? && Holds(s.reg, i.cc))
    ensures Exec(s, skipBug, canSwitch).state.reg.pc == RelativeTarget(s, skipBug)
  {
    var op := Read(s, s.reg.pc);
    RelativeWords(op);
    MainRelative(s, op, Ins(op).operation, skipBug, canSwitch);
  }

  // ---------------------------------------------------------------- cycles handed on

  /** In normal speed a main-table instruction hands on exactly the cycles it returns, in one piece or
    * split around its memory access, and leaves nothing recorded in passed. */
  lemma MainFeeds(s: State, op: Byte, i: Instr, canSwitch: bool)
    requires Valid(s) && !s.cgbSpeed && s.passed == 0 && !i.Stop?
    ensures var r := ExecMain(s, op, i, canSwitch);
            Total(r.state.fed) == Total(s.fed) + r.cycles && r.state.passed == 0
  {
    RunSummary(s, i, canSwitch);
    var t := Run(s, i, canSwitch);
    TotalAppend(t.fed, t.cycles[op] - t.passed);
    if t.fed != s.fed {
      TotalAppend(s.fed, t.passed);
    }
  }

  lemma ExecFeeds(s: State, skipBug: bool, canSwitch: bool)
    requires Valid(s) && !s.cgbSpeed && s.passed == 0
    requires var op := Read(s, s.reg.pc); op != 0xCB && !Ins(op).operation.Stop?
    ensures var r := Exec(s, skipBug, canSwitch);
            Total(r.state.fed) == Total(s.fed) + r.cycles && r.state.passed == 0
  {
    Fetched(s, skipBug);
    var s1 := Promote(s);
    var op := Read(s, s.reg.pc);
    MainFeeds(Advance(s1, op, skipBug), op, Ins(op).operation, canSwitch);
  }

  /** What a prefixed handler hands on itself: nothing on a register, 4 cycles for BIT on (HL), and 4
    * before and 4 after the read for the other instructions on (HL). */
  lemma ExtFed(s: State, i: ExtInstr)
    requires Valid(s) && !s.cgbSpeed && (i.BitTest? || i.BitRes? || i.BitSet? ==> 0 <= i.bit < 8)
    ensures RunExt(s, i).fed == s.fed + (if i.loc.Reg? then [] else if i.BitTest? then [4] else [4, 4])
    ensures !RunExt(s, i).cgbSpeed
  {
    match i.loc {
      case Reg(x) =>
        match i {
          case Shift(_, _) =>
          case BitTest(_, _) =>
          case BitRes(_, _) =>
          case BitSet(_, _) =>
        }
      case MemHL =>
        match i {
          case Shift(_, _) =>
          case BitTest(_, _) =>
          case BitRes(_, _) =>
          case BitSet(_, _) =>
        }
    }
  }

  lemma ExtTotal(s: State, i: ExtInstr)
    requires Valid(s) && !s.cgbSpeed && (i.BitTest? || i.BitRes? || i.BitSet? ==> 0 <= i.bit < 8)
    ensures Total(Tick(RunExt(s, i), 8).fed)
            == Total(s.fed) + (if i.loc == MemHL then 16 else 8) - (if i.BitTest? && i.loc == MemHL then 4 else 0)
  {
    ExtFed(s, i);
    var t := RunExt(s, i);
    assert Tick(t, 8).fed == t.fed + [8];
    TotalAppend(t.fed, 8);
    if i.loc == MemHL {
      TotalAppend(s.fed, 4);
      if !i.BitTest? {
        assert t.fed == (s.fed + [4]) + [4];
        TotalAppend(s.fed + [4], 4);
      }
    }
  }

  /** A prefixed instruction hands on the 16 or 8 cycles it returns, except BIT b,(HL), which returns 16
    * but hands on 12. */
  lemma ExtFeeds(s: State)
    requires Valid(s) && !s.cgbSpeed
    ensures var e := ExtDecode(Imm8(s)).operation;
            var r := ExecExt(s);
            Total(r.state.fed) == Total(s.fed) + r.cycles - (if e.BitTest? && e.loc == MemHL then 4 else 0)
  {
    ExtTotal(s, ExtDecode(Imm8(s)).operation);
  }

  // ---------------------------------------------------------------- start-up

  /** reset_cpu: AF is 0x11B0 on a colour console and 0x01B0 otherwise, so Z, H and C are set and N is
    * clear; BC, DE and HL are 0x0013, 0x00D8 and 0x014D; SP is 0xFFFE, PC 0 and normal speed. */
  lemma ResetValues(s: State, cgb: bool)
    requires Valid(s)
    ensures var t := Reset(s, cgb);
            t.reg.a == (if cgb then 0x11 else 0x01) && t.reg.flags == Alu.Flags(true, false, true, true)
            && Get16(t.reg, BC) == 0x0013 && Get16(t.reg, DE) == 0x00D8 && Get16(t.reg, HL) == 0x014D
            && t.reg.sp == 0xFFFE && t.reg.pc == 0 && !t.cgbSpeed && !t.halted && !t.stopped
            && t.mem == s.mem && t.ime == s.ime
  {
    var af := Set16(s.reg, AF, if cgb then 0x11B0 else 0x01B0);
    assert af.a == (if cgb then 0x11 else 0x01);
    PairWriteRead(af, BC, 0x0013);
    var bc := Set16(af, BC, 0x0013);
    PairWriteRead(bc, DE, 0x00D8);
    var de := Set16(bc, DE, 0x00D8);
    PairWriteRead(de, HL, 0x014D);
  }
}
