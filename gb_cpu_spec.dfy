/** What one step of the Game Boy CPU interpreter does, as functions of its state: the registers, the
  * memory it reads and writes, the master interrupt enable and its one-instruction delay, the halt,
  * stop and double-speed flags, the mutable cycle column of the main instruction table, and the cycle
  * counts handed to the timers, graphics, sound and serial units in the order they are handed over.
  *
  * F is kept as its four flags: its low nibble is always 0, because POP AF clears it and nothing else
  * writes F as a byte. Memory is a plain 64 KiB of bytes, and the I/O registers are its top page. */
module GbCpuSpec {
  import Alu = GbAlu
  import opened GbOpcodes

  predicate IsByte(b: int)
  {
    0 <= b < 0x100
  }

  predicate IsWord(w: int)
  {
    0 <= w < 0x10000
  }

  type Byte = b: int | 0 <= b < 0x100

  type Word = w: int | 0 <= w < 0x10000

  /** The offset of the Game Color's speed switch register KEY1 (0xFF4D) in the I/O page. */
  const KEY1 := 0x4D

  /** The value a read of the sound registers 0xFF10-0xFF3F gives. */
  const APU_READ := 0xFF

  /** The register union: seven 8-bit registers, the flags, SP and PC. */
  datatype Regs = Regs(a: Byte, b: Byte, c: Byte, d: Byte, e: Byte, h: Byte, l: Byte, flags: Alu.Flags,
                       sp: Word, pc: Word)

  datatype State = State(
    reg: Regs,
    mem: seq<Byte>,
    /** interrupts_enabled and interrupts_enabled_timer */
    ime: bool, imeTimer: bool,
    /** timer_cycles_passed: cycles a handler has already handed over */
    passed: int,
    halted: bool, stopped: bool, cgbSpeed: bool,
    /** the cycles column of the main table, which conditional branches overwrite */
    cycles: seq<int>,
    /** every count update_all_cycles has passed on, after halving at double speed */
    fed: seq<int>)

  /** The whole address space and a cycles entry for every opcode. */
  predicate Valid(s: State)
  {
    |s.mem| == 0x10000 && |s.cycles| == 0x100
  }

  /** One step's outcome: the new state and the cycles exec_opcode returns. */
  datatype Step = Step(state: State, cycles: int)

  // ---------------------------------------------------------------- registers

  function GetR(r: Regs, x: R8): Byte
  {
    match x
    case A => r.a
    case B => r.b
    case C => r.c
    case D => r.d
    case E => r.e
    case H => r.h
    case L => r.l
  }

  function SetR(r: Regs, x: R8, v: Byte): Regs
  {
    match x
    case A => r.(a := v)
    case B => r.(b := v)
    case C => r.(c := v)
    case D => r.(d := v)
    case E => r.(e := v)
    case H => r.(h := v)
    case L => r.(l := v)
  }

  function AddrHL(r: Regs): Word
  {
    r.h as int * 0x100 + r.l
  }

  /** A register pair: the first register is the high byte; AF has F, as a byte, low. */
  function Get16(r: Regs, p: Pair): Word
  {
    match p
    case BC => r.b as int * 0x100 + r.c
    case DE => r.d as int * 0x100 + r.e
    case HL => r.h as int * 0x100 + r.l
    case SP => r.sp
    case AF => r.a as int * 0x100 + Alu.FlagsByte(r.flags)
  }

  /** Writing a pair; writing AF keeps only bits 7-4 of the low byte as the flags. */
  function Set16(r: Regs, p: Pair, w: Word): Regs
  {
    match p
    case BC => r.(b := w / 0x100, c := w % 0x100)
    case DE => r.(d := w / 0x100, e := w % 0x100)
    case HL => r.(h := w / 0x100, l := w % 0x100)
    case SP => r.(sp := w)
    case AF => r.(a := w / 0x100, flags := Alu.ByteFlags(w % 0x100))
  }

  /** The branch condition cc on the current flags. */
  predicate Holds(r: Regs, cc: Cond)
  {
    match cc
    case NZ => !r.flags.z
    case Z => r.flags.z
    case NC => !r.flags.c
    case CY => r.flags.c
  }

  // ---------------------------------------------------------------- memory

  function Read(s: State, addr: Word): Byte
    requires Valid(s)
  {
    s.mem[addr]
  }

  function Write(s: State, addr: Word, v: Byte): (t: State)
    requires Valid(s)
    ensures Valid(t)
  {
    s.(mem := s.mem[addr := v])
  }

  /** get_mem_16 and set_mem_16, low byte first; the second address wraps at 64 KiB. */
  function Read16(s: State, addr: Word): Word
    requires Valid(s)
  {
    Read(s, addr) as int + Read(s, (addr + 1) % 0x10000) as int * 0x100
  }

  function Write16(s: State, addr: Word, w: Word): (t: State)
    requires Valid(s)
    ensures Valid(t)
  {
    Write(Write(s, addr, w % 0x100), (addr + 1) % 0x10000, w / 0x100)
  }

  /** IMMEDIATE_8_BIT: the byte before the advanced PC. */
  function Imm8(s: State): Byte
    requires Valid(s)
  {
    Read(s, (s.reg.pc - 1) % 0x10000)
  }

  /** IMMEDIATE_16_BIT: the two bytes before the advanced PC, the later one high. */
  function Imm16(s: State): Word
    requires Valid(s)
  {
    Read(s, (s.reg.pc - 1) % 0x10000) as int * 0x100 + Read(s, (s.reg.pc - 2) % 0x10000)
  }

  /** An I/O register read by LDH: the sound registers read as APU_READ, the others from the I/O page. */
  function ReadIo(s: State, n: Byte): Byte
    requires Valid(s)
  {
    if 0x10 <= n <= 0x3F then APU_READ else Read(s, 0xFF00 + n)
  }

  function ReadSrc(s: State, src: Src): Byte
    requires Valid(s)
  {
    match src
    case At(Reg(x)) => GetR(s.reg, x)
    case At(MemHL) => Read(s, AddrHL(s.reg))
    case Imm => Imm8(s)
  }

  function WriteLoc(s: State, loc: Loc, v: Byte): (t: State)
    requires Valid(s)
    ensures Valid(t)
  {
    match loc
    case Reg(x) => s.(reg := SetR(s.reg, x, v))
    case MemHL => Write(s, AddrHL(s.reg), v)
  }

  // ---------------------------------------------------------------- stack

  /** PUSH: SP down by two (wrapping), then the word stored at the new SP. */
  function PushWord(s: State, w: Word): (t: State)
    requires Valid(s)
    ensures Valid(t)
  {
    var sp := (s.reg.sp - 2) % 0x10000;
    Write16(s.(reg := s.reg.(sp := sp)), sp, w)
  }

  /** POP: the word at SP into the pair, then SP up by two. */
  function PopPair(s: State, p: Pair): (t: State)
    requires Valid(s)
    ensures Valid(t)
  {
    var r := Set16(s.reg, p, Read16(s, s.reg.sp));
    s.(reg := r.(sp := (r.sp + 2) % 0x10000))
  }

  /** RET: PC popped. */
  function PopPc(s: State): (t: State)
    requires Valid(s)
    ensures Valid(t)
  {
    s.(reg := s.reg.(pc := Read16(s, s.reg.sp), sp := (s.reg.sp + 2) % 0x10000))
  }

  /** restart: the PC pushed and a jump to addr. */
  function Restart(s: State, addr: Word): (t: State)
    requires Valid(s)
    ensures Valid(t)
  {
    var pushed := PushWord(s, s.reg.pc);
    pushed.(reg := pushed.reg.(pc := addr))
  }

  // ---------------------------------------------------------------- cycles

  /** C's long / 2, which truncates toward zero. */
  function Half(n: int): (r: int)
    ensures n >= 0 ==> 0 <= r && r * 2 <= n < r * 2 + 2
    ensures n < 0 ==> r <= 0 && r * 2 >= n > r * 2 - 2
  {
    if n >= 0 then n / 2 else -((-n) / 2)
  }

  /** update_all_cycles: the count handed on, halved at double speed. */
  function Tick(s: State, n: int): (t: State)
    requires Valid(s)
    ensures Valid(t)
  {
    s.(fed := s.fed + [if s.cgbSpeed then Half(n) else n])
  }

  /** A handler's own timer update before it touches memory: handed on and remembered in passed. */
  function TickPassed(s: State, n: int): (t: State)
    requires Valid(s)
    ensures Valid(t)
  {
    Tick(s, n).(passed := n)
  }

  // ---------------------------------------------------------------- handlers

  function AluResult(op: AluOp, a: Byte, v: Byte, f: Alu.Flags): (r: Alu.Result)
    ensures IsByte(r.value)
  {
    match op
    case AddA => Alu.Add8(a, v, f)
    case AdcA => Alu.Adc8(a, v, f)
    case SubA => Alu.Sub8(a, v, f)
    case SbcA => Alu.Sbc8(a, v, f)
    case AndA => Alu.And8(a, v, f)
    case XorA => Alu.Xor8(a, v, f)
    case OrA => Alu.Or8(a, v, f)
    case CpA => Alu.Result(a, Alu.Cp8(a, v, f))
  }

  function ShiftResult(op: ShiftOp, v: Byte, f: Alu.Flags): (r: Alu.Result)
    ensures IsByte(r.value)
  {
    match op
    case RlcN => Alu.Rlc(v, f, true)
    case RrcN => Alu.Rrc(v, f, true)
    case RlN => Alu.Rl(v, f, true)
    case RrN => Alu.Rr(v, f, true)
    case SlaN => Alu.Sla(v, f)
    case SraN => Alu.Sra(v, f)
    case SwapN => Alu.Swap(v, f)
    case SrlN => Alu.Srl(v, f)
  }

  function RotResult(op: RotOp, v: Byte, f: Alu.Flags): (r: Alu.Result)
    ensures IsByte(r.value)
  {
    match op
    case Rlca => Alu.Rlc(v, f, false)
    case Rla => Alu.Rl(v, f, false)
    case Rrca => Alu.Rrc(v, f, false)
    case Rra => Alu.Rr(v, f, false)
  }

  /** A result into A and the flags. */
  function IntoA(s: State, r: Alu.Result): (t: State)
    requires IsByte(r.value)
  {
    s.(reg := s.reg.(a := r.value, flags := r.f))
  }

  /** A 16-bit result into HL and the flags. */
  function IntoHL(s: State, r: Alu.Result): (t: State)
    requires IsWord(r.value)
  {
    s.(reg := Set16(s.reg.(flags := r.f), HL, r.value))
  }

  /** INC and DEC of a register, or of the byte at HL with a timer update between reading and writing. */
  function IncDec(s: State, loc: Loc, inc: bool): (t: State)
    requires Valid(s)
    ensures Valid(t)
  {
    var v := ReadSrc(s, At(loc));
    var r := if inc then Alu.Inc8(v, s.reg.flags) else Alu.Dec8(v, s.reg.flags);
    var flagged := s.(reg := s.reg.(flags := r.f));
    match loc
    case Reg(x) => flagged.(reg := SetR(flagged.reg, x, r.value))
    case MemHL => Write(TickPassed(flagged, 4), AddrHL(s.reg), r.value)
  }

  /** STOP: stopped; when a speed switch is armed (bit 0 of KEY1) and may be taken, the speed flips to
    * double if bit 7 was clear, KEY1 becomes 0x80 for double speed and 0 otherwise, and the CPU runs on. */
  function Stop(s: State, canSwitch: bool): (t: State)
    requires Valid(s)
    ensures Valid(t)
  {
    var key := Read(s, 0xFF00 + KEY1);
    if canSwitch && key % 2 == 1 then
      var fast := key < 0x80;
      Write(s.(cgbSpeed := fast, stopped := false), 0xFF00 + KEY1, if fast then 0x80 else 0)
    else
      s.(stopped := true)
  }

  /** A conditional branch: taken runs the branch; either way the instruction's own cycles entry is set. */
  function Branch(s: State, i: Instr, taken: State, yes: int, no: int): (t: State)
    requires Valid(s) && Valid(taken) && (i.JpCond? || i.JrCond? || i.CallCond? || i.RetCond?)
    ensures Valid(t)
  {
    if Holds(s.reg, i.cc) then taken.(cycles := taken.cycles[CondIndex(i) := yes])
    else s.(cycles := s.cycles[CondIndex(i) := no])
  }

  function JumpTo(s: State, addr: Word): (t: State)
  {
    s.(reg := s.reg.(pc := addr))
  }

  /** JR_n: the signed immediate added to the advanced PC, in 16 bits. */
  function JumpRelative(s: State): (t: State)
    requires Valid(s)
    ensures Valid(t)
  {
    JumpTo(s, (s.reg.pc + Alu.Signed8(Imm8(s))) % 0x10000)
  }

  /** CALL_nn: the advanced PC pushed, then the jump to the immediate, which is read after the push. */
  function CallNn(s: State): (t: State)
    requires Valid(s)
    ensures Valid(t)
  {
    var pushed := PushWord(s, s.reg.pc);
    JumpTo(pushed, Imm16(pushed))
  }

  predicate IsLoadMem(i: Instr)
  {
    i.Ld? || i.LdMemHlImm? || i.LdAMem? || i.LdMemA?
  }

  predicate IsLoadAddr(i: Instr)
  {
    i.LdANn? || i.LdNnA? || i.LdAHl? || i.LdHlA?
  }

  predicate IsLoadIo(i: Instr)
  {
    i.LdhNA? || i.LdhAN? || i.LdhAC? || i.LdhCA?
  }

  predicate IsLoad16(i: Instr)
  {
    i.Ld16? || i.LdSpHl? || i.LdHlSpN? || i.LdNnSp?
  }

  predicate IsStack(i: Instr)
  {
    i.Push? || i.Pop?
  }

  predicate IsLoad(i: Instr)
  {
    IsLoadMem(i) || IsLoadAddr(i) || IsLoadIo(i) || IsLoad16(i) || IsStack(i)
  }

  predicate IsAlu8(i: Instr)
  {
    i.Alu? || i.Inc? || i.Dec? || i.RotA?
  }

  predicate IsAlu16(i: Instr)
  {
    i.AddHl? || i.AddSpN? || i.Inc16? || i.Dec16?
  }

  predicate IsAccum(i: Instr)
  {
    i.Daa? || i.Cpl? || i.Ccf? || i.Scf?
  }

  predicate IsArith(i: Instr)
  {
    IsAlu8(i) || IsAlu16(i) || IsAccum(i)
  }

  predicate IsJump(i: Instr)
  {
    i.Jp? || i.JpCond? || i.JpHl? || i.Jr? || i.JrCond?
  }

  predicate IsCall(i: Instr)
  {
    i.Call? || i.CallCond? || i.Rst? || i.Ret? || i.RetCond? || i.Reti?
  }

  predicate IsFlow(i: Instr)
  {
    IsJump(i) || IsCall(i)
  }

  /** The handler of a main-table instruction, run with PC already past it. canSwitch is
    * cgb && (is_booting || cgb_features), the condition for a speed switch on STOP. */
  function Run(s: State, i: Instr, canSwitch: bool): (t: State)
    requires Valid(s)
    ensures Valid(t)
  {
    if IsLoad(i) then RunLoad(s, i)
    else if IsArith(i) then RunArith(s, i)
    else if IsFlow(i) then RunFlow(s, i)
    else RunControl(s, i, canSwitch)
  }

  function RunLoad(s: State, i: Instr): (t: State)
    requires Valid(s) && IsLoad(i)
    ensures Valid(t)
  {
    if IsLoadMem(i) then RunLoadMem(s, i)
    else if IsLoadAddr(i) then RunLoadAddr(s, i)
    else if IsLoadIo(i) then RunLoadIo(s, i)
    else if IsLoad16(i) then RunLoad16(s, i)
    else RunStack(s, i)
  }

  /** LD between registers, the byte at HL and an immediate, and A to and from the byte at BC or DE. */
  function RunLoadMem(s: State, i: Instr): (t: State)
    requires Valid(s) && IsLoadMem(i)
    ensures Valid(t)
  {
    var r := s.reg;
    match i
    case Ld(dst, src) => WriteLoc(s, dst, ReadSrc(s, src))
    case LdMemHlImm => Write(TickPassed(s, 4), AddrHL(r), Imm8(s))
    case LdAMem(p) => s.(reg := r.(a := Read(s, Get16(r, p))))
    case LdMemA(p) => Write(s, Get16(r, p), r.a)
  }

  /** A to and from an immediate address, and LDI and LDD, which step HL after the transfer. */
  function RunLoadAddr(s: State, i: Instr): (t: State)
    requires Valid(s) && IsLoadAddr(i)
    ensures Valid(t)
  {
    var r := s.reg;
    match i
    case LdANn => TickPassed(s, 8).(reg := r.(a := Read(s, Imm16(s))))
    case LdNnA => Write(TickPassed(s, 8), Imm16(s), r.a)
    case LdAHl(step) => s.(reg := Set16(r.(a := Read(s, AddrHL(r))), HL, (AddrHL(r) + step) % 0x10000))
    case LdHlA(step) => var w := Write(s, AddrHL(r), r.a); w.(reg := Set16(r, HL, (AddrHL(r) + step) % 0x10000))
  }

  /** LDH: A to and from the I/O page, at an immediate offset or at C. */
  function RunLoadIo(s: State, i: Instr): (t: State)
    requires Valid(s) && IsLoadIo(i)
    ensures Valid(t)
  {
    var r := s.reg;
    match i
    case LdhNA => Write(TickPassed(s, 4), 0xFF00 + Imm8(s), r.a)
    case LdhAN => TickPassed(s, 4).(reg := r.(a := ReadIo(s, Imm8(s))))
    case LdhAC => s.(reg := r.(a := ReadIo(s, r.c)))
    case LdhCA => Write(s, 0xFF00 + r.c, r.a)
  }

  /** The 16-bit loads. */
  function RunLoad16(s: State, i: Instr): (t: State)
    requires Valid(s) && IsLoad16(i)
    ensures Valid(t)
  {
    var r := s.reg;
    match i
    case Ld16(p) => s.(reg := Set16(r, p, Imm16(s)))
    case LdSpHl => s.(reg := r.(sp := AddrHL(r)))
    case LdHlSpN => IntoHL(s, Alu.LdHlSpImm(r.sp, Imm8(s), r.flags))
    case LdNnSp => Write16(s, Imm16(s), r.sp)
  }

  /** PUSH and POP. */
  function RunStack(s: State, i: Instr): (t: State)
    requires Valid(s) && IsStack(i)
    ensures Valid(t)
  {
    match i
    case Push(p) => PushWord(s, Get16(s.reg, p))
    case Pop(p) => PopPair(s, p)
  }

  function RunArith(s: State, i: Instr): (t: State)
    requires Valid(s) && IsArith(i)
    ensures Valid(t)
  {
    if IsAlu8(i) then RunAlu8(s, i)
    else if IsAlu16(i) then RunAlu16(s, i)
    else RunAccum(s, i)
  }

  /** The 8-bit arithmetic and logic into A, INC and DEC, and the rotates of A. */
  function RunAlu8(s: State, i: Instr): (t: State)
    requires Valid(s) && IsAlu8(i)
    ensures Valid(t)
  {
    var r := s.reg;
    match i
    case Alu(op, src) => IntoA(s, AluResult(op, r.a, ReadSrc(s, src), r.flags))
    case Inc(loc) => IncDec(s, loc, true)
    case Dec(loc) => IncDec(s, loc, false)
    case RotA(op) => IntoA(s, RotResult(op, r.a, r.flags))
  }

  /** The 16-bit arithmetic. */
  function RunAlu16(s: State, i: Instr): (t: State)
    requires Valid(s) && IsAlu16(i)
    ensures Valid(t)
  {
    var r := s.reg;
    match i
    case AddHl(p) => IntoHL(s, Alu.Add16(AddrHL(r), Get16(r, p), r.flags))
    case AddSpN =>
      var sum := Alu.AddSpImm(r.sp, Imm8(s), r.flags);
      s.(reg := r.(sp := sum.value, flags := sum.f))
    case Inc16(p) => s.(reg := Set16(r, p, (Get16(r, p) + 1) % 0x10000))
    case Dec16(p) => s.(reg := Set16(r, p, (Get16(r, p) - 1) % 0x10000))
  }

  /** DAA, CPL, CCF and SCF. */
  function RunAccum(s: State, i: Instr): (t: State)
    requires Valid(s) && IsAccum(i)
    ensures Valid(t)
  {
    var r := s.reg;
    match i
    case Daa => IntoA(s, Alu.Daa(r.a, r.flags))
    case Cpl => IntoA(s, Alu.Cpl(r.a, r.flags))
    case Ccf => s.(reg := r.(flags := Alu.Ccf(r.flags)))
    case Scf => s.(reg := r.(flags := Alu.Scf(r.flags)))
  }

  function RunFlow(s: State, i: Instr): (t: State)
    requires Valid(s) && IsFlow(i)
    ensures Valid(t)
  {
    if IsJump(i) then RunJump(s, i) else RunCall(s, i)
  }

  /** The jumps, absolute and relative. */
  function RunJump(s: State, i: Instr): (t: State)
    requires Valid(s) && IsJump(i)
    ensures Valid(t)
  {
    match i
    case Jp => JumpTo(s, Imm16(s))
    case JpCond(_) => Branch(s, i, JumpTo(s, Imm16(s)), 16, 12)
    case JpHl => JumpTo(s, AddrHL(s.reg))
    case Jr => JumpRelative(s)
    case JrCond(_) => Branch(s, i, JumpRelative(s), 12, 8)
  }

  /** Calls, restarts and returns. */
  function RunCall(s: State, i: Instr): (t: State)
    requires Valid(s) && IsCall(i)
    ensures Valid(t)
  {
    match i
    case Call => CallNn(s)
    case CallCond(_) => Branch(s, i, CallNn(s), 24, 12)
    case Rst(addr) => if IsWord(addr) then Restart(s, addr) else s
    case Ret => PopPc(s)
    case RetCond(_) => Branch(s, i, PopPc(s), 20, 8)
    case Reti => PopPc(s).(imeTimer := true)
  }

  /** NOP, the unused opcodes, HALT, STOP, DI and EI. */
  function RunControl(s: State, i: Instr, canSwitch: bool): (t: State)
    requires Valid(s)
    ensures Valid(t)
  {
    if i.Halt? then s.(halted := true)
    else if i.Stop? then Stop(s, canSwitch)
    else if i.Di? then s.(ime := false, imeTimer := false)
    else if i.Ei? then s.(imeTimer := true)
    else s
  }

  /** A result into register x and the flags. */
  function IntoR(s: State, x: R8, r: Alu.Result): (t: State)
    requires IsByte(r.value)
  {
    s.(reg := SetR(s.reg.(flags := r.f), x, r.value))
  }

  /** The handler of a 0xCB-prefixed instruction. */
  function RunExt(s: State, i: ExtInstr): (t: State)
    requires Valid(s)
    requires i.BitTest? || i.BitRes? || i.BitSet? ==> 0 <= i.bit < 8
    ensures Valid(t)
  {
    match i.loc
    case Reg(x) => RunExtReg(s, i, x)
    case MemHL => RunExtMem(s, i)
  }

  /** A prefixed instruction on a register. */
  function RunExtReg(s: State, i: ExtInstr, x: R8): (t: State)
    requires i.BitTest? || i.BitRes? || i.BitSet? ==> 0 <= i.bit < 8
  {
    var r := s.reg;
    match i
    case Shift(op, _) => IntoR(s, x, ShiftResult(op, GetR(r, x), r.flags))
    case BitTest(b, _) => s.(reg := r.(flags := Alu.TestBit(GetR(r, x), b, r.flags)))
    case BitRes(b, _) => s.(reg := SetR(r, x, Alu.ResBit(GetR(r, x), b)))
    case BitSet(b, _) => s.(reg := SetR(r, x, Alu.SetBit(GetR(r, x), b)))
  }

  /** A prefixed instruction on the byte at HL: a rotate, shift, SET or RES hands 4 cycles on before
    * reading and 4 more before writing; BIT hands 4 on before reading. */
  function RunExtMem(s: State, i: ExtInstr): (t: State)
    requires Valid(s)
    requires i.BitTest? || i.BitRes? || i.BitSet? ==> 0 <= i.bit < 8
    ensures Valid(t)
  {
    var r := s.reg;
    var v := Read(s, AddrHL(r));
    match i
    case Shift(op, _) =>
      var res := ShiftResult(op, v, r.flags);
      Write(Tick(Tick(s, 4), 4).(reg := r.(flags := res.f)), AddrHL(r), res.value)
    case BitTest(b, _) => Tick(s, 4).(reg := r.(flags := Alu.TestBit(v, b, r.flags)))
    case BitRes(b, _) => Write(Tick(Tick(s, 4), 4), AddrHL(r), Alu.ResBit(v, b))
    case BitSet(b, _) => Write(Tick(Tick(s, 4), 4), AddrHL(r), Alu.SetBit(v, b))
  }

  /** exec_opcode: a pending enable is promoted; the opcode at PC is fetched; PC moves back one when the
    * halt bug is to be reproduced and then forward by the instruction's length; then the main-table or
    * the prefixed instruction runs. */
  function Exec(s: State, skipBug: bool, canSwitch: bool): (r: Step)
    requires Valid(s)
    ensures Valid(r.state)
  {
    var s1 := Promote(s);
    var op := Read(s, s.reg.pc);
    var s2 := Advance(s1, op, skipBug);
    if op != 0xCB then ExecMain(s2, op, Ins(op).operation, canSwitch) else ExecExt(s2)
  }

  /** The handler i of main-table opcode op runs, and the timers get the table's cycles less those the
    * handler handed on already. */
  function ExecMain(s: State, op: Byte, i: Instr, canSwitch: bool): (r: Step)
    requires Valid(s)
    ensures Valid(r.state)
  {
    Finish(Run(s, i, canSwitch), op)
  }

  /** After the handler: the cycles the table holds for op, less those already handed on. */
  function Finish(t: State, op: Byte): (r: Step)
    requires Valid(t)
    ensures Valid(r.state)
  {
    var n := t.cycles[op];
    Step(Tick(t, n - t.passed).(passed := 0), n)
  }

  /** A 0xCB instruction is chosen by the byte after the prefix, and the timers get 8 cycles. The entry
    * of the prefixed table is taken as ExtDecode gives it, which ExtTableLayout shows is the same. */
  function ExecExt(s: State): (r: Step)
    requires Valid(s)
    ensures Valid(r.state)
  {
    var e := ExtDecode(Imm8(s));
    Step(Tick(RunExt(s, e.operation), 8), e.cycles)
  }

  /** The start of exec_opcode: a pending enable becomes the master enable. */
  function Promote(s: State): (t: State)
  {
    if s.imeTimer then s.(ime := true, imeTimer := false) else s
  }

  /** The PC past the instruction, from one before it when skipBug reproduces the halt bug. */
  function Advance(s: State, op: Byte, skipBug: bool): (t: State)
  {
    s.(reg := s.reg.(pc := NextPc(s.reg.pc, op, skipBug)))
  }

  /** The address after instruction op at pc, counted from pc - 1 under the halt bug. */
  function NextPc(pc: Word, op: Byte, skipBug: bool): (next: Word)
  {
    ((if skipBug then (pc - 1) % 0x10000 else pc) + Words(op)) % 0x10000
  }


  // ---------------------------------------------------------------- start-up

  /** The cycles column as the table is written. */
  function TableCycles(): (t: seq<int>)
    ensures |t| == 0x100
  {
    seq(0x100, op requires 0 <= op < 0x100 => Ins(op).cycles)
  }

  /** The statics before reset_cpu: interrupts enabled, nothing pending, nothing handed on yet, the
    * table's cycles, and registers 0. */
  function Initial(memory: seq<Byte>): (s: State)
    requires |memory| == 0x10000
    ensures Valid(s)
  {
    State(Regs(0, 0, 0, 0, 0, 0, 0, Alu.Flags(false, false, false, false), 0, 0), memory,
      true, false, 0, false, false, false, TableCycles(), [])
  }

  /** reset_cpu: normal speed, AF = 0x11B0 on a Color and 0x01B0 otherwise, BC = 0x0013, DE = 0x00D8,
    * HL = 0x014D, PC = 0, SP = 0xFFFE, neither halted nor stopped. */
  function Reset(s: State, cgb: bool): (t: State)
    requires Valid(s)
    ensures Valid(t)
  {
    var af := Set16(s.reg, AF, if cgb then 0x11B0 else 0x01B0);
    var r := Set16(Set16(Set16(af, BC, 0x0013), DE, 0x00D8), HL, 0x014D);
    s.(cgbSpeed := false, reg := r.(pc := 0x0000, sp := 0xFFFE), halted := false, stopped := false)
  }
}
