/** The CPU interpreter as the program runs it: registers, flags and the interrupt statics are fields
  * that the handlers update in place, the cycles column of the instruction table is an array that the
  * conditional branches overwrite, and update_all_cycles appends to the trace of counts handed on.
  * Every method is proved to do what the matching function of GbCpuSpec says. */
module GbCpu {
  import Alu = GbAlu
  import opened GbOpcodes
  import opened GbCpuSpec

  class Cpu {
    /** the register union */
    var reg: Regs
    var mem: seq<Byte>
    var ime: bool
    var imeTimer: bool
    var passed: int
    var halted: bool
    var stopped: bool
    var cgbSpeed: bool
    /** ins[op].cycles */
    const cycles: array<int>
    var fed: seq<int>

    ghost function Abs(): State
      reads this, cycles
    {
      State(reg, mem, ime, imeTimer, passed, halted, stopped, cgbSpeed, cycles[..], fed)
    }

    ghost predicate Valid()
      reads this, cycles
      ensures Valid() ==> GbCpuSpec.Valid(Abs())
    {
      |mem| == 0x10000 && cycles.Length == 0x100
    }

    /** The statics as the program starts, with the given memory. */
    constructor (memory: seq<Byte>)
      requires |memory| == 0x10000
      ensures Valid() && Abs() == Initial(memory) && fresh(cycles)
    {
      reg := Regs(0, 0, 0, 0, 0, 0, 0, Alu.Flags(false, false, false, false), 0, 0);
      mem := memory;
      ime, imeTimer, passed := true, false, 0;
      halted, stopped, cgbSpeed := false, false, false;
      fed := [];
      var table := new int[0x100];
      var op := 0;
      while op < 0x100
        invariant 0 <= op <= 0x100
        invariant forall k :: 0 <= k < op ==> table[k] == Ins(k).cycles
      {
        table[op] := Ins(op).cycles;
        op := op + 1;
      }
      cycles := table;
      new;
      assert cycles[..] == TableCycles();
    }

    // ---------------------------------------------------------------- memory

    function Imm8(): (v: Byte)
      requires |mem| == 0x10000
      reads this
    {
      mem[(reg.pc - 1) % 0x10000]
    }

    function Imm16(): (w: Word)
      requires |mem| == 0x10000
      reads this
    {
      mem[(reg.pc - 1) % 0x10000] as int * 0x100 + mem[(reg.pc - 2) % 0x10000]
    }

    function Source(src: Src): (v: Byte)
      requires |mem| == 0x10000
      reads this
    {
      match src
      case At(Reg(r)) => GetR(reg, r)
      case At(MemHL) => mem[AddrHL(reg)]
      case Imm => Imm8()
    }

    function ReadWord(addr: Word): (w: Word)
      requires |mem| == 0x10000
      reads this
    {
      mem[addr] as int + mem[(addr + 1) % 0x10000] as int * 0x100
    }

    method WriteWord(addr: Word, w: Word)
      requires Valid()
      modifies this
      ensures Valid() && Abs() == Write16(old(Abs()), addr, w)
    {
      mem := mem[addr := w % 0x100];
      mem := mem[(addr + 1) % 0x10000 := w / 0x100];
    }

    method Push(w: Word)
      requires Valid()
      modifies this
      ensures Valid() && Abs() == PushWord(old(Abs()), w)
    {
      reg := reg.(sp := (reg.sp - 2) % 0x10000);
      WriteWord(reg.sp, w);
    }

    /** update_all_cycles */
    method UpdateAllCycles(n: int)
      requires Valid()
      modifies this
      ensures Valid() && Abs() == Tick(old(Abs()), n)
    {
      fed := fed + [if cgbSpeed then Half(n) else n];
    }

    // ---------------------------------------------------------------- handlers

    method Load(i: Instr)
      requires Valid() && IsLoad(i)
      modifies this
      ensures Valid() && Abs() == RunLoad(old(Abs()), i)
    {
      if IsLoadMem(i) {
        LoadMem(i);
      } else if IsLoadAddr(i) {
        LoadAddr(i);
      } else if IsLoadIo(i) {
        LoadIo(i);
      } else if IsLoad16(i) {
        Load16(i);
      } else {
        Stack(i);
      }
    }

    method LoadMem(i: Instr)
      requires Valid() && IsLoadMem(i)
      modifies this
      ensures Valid() && Abs() == RunLoadMem(old(Abs()), i)
    {
      match i
      case Ld(dst, src) =>
        var v := Source(src);
        match dst {
          case Reg(x) => reg := SetR(reg, x, v);
          case MemHL => mem := mem[AddrHL(reg) := v];
        }
      case LdMemHlImm =>
        UpdateAllCycles(4);
        passed := 4;
        mem := mem[AddrHL(reg) := Imm8()];
      case LdAMem(p) =>
        reg := reg.(a := mem[Get16(reg, p)]);
      case LdMemA(p) =>
        mem := mem[Get16(reg, p) := reg.a];
    }

    method LoadAddr(i: Instr)
      requires Valid() && IsLoadAddr(i)
      modifies this
      ensures Valid() && Abs() == RunLoadAddr(old(Abs()), i)
    {
      match i
      case LdANn => LoadANn(i);
      case LdNnA => StoreNnA(i);
      case LdAHl(step) => LoadAHl(i, step);
      case LdHlA(step) => StoreHlA(i, step);
    }

    /** LD A,(nn) */
    method LoadANn(i: Instr)
      requires Valid() && i.LdANn?
      modifies this
      ensures Valid() && Abs() == RunLoadAddr(old(Abs()), i)
    {
      UpdateAllCycles(8);
      reg := reg.(a := mem[Imm16()]);
      passed := 8;
    }

    /** LD (nn),A */
    method StoreNnA(i: Instr)
      requires Valid() && i.LdNnA?
      modifies this
      ensures Valid() && Abs() == RunLoadAddr(old(Abs()), i)
    {
      UpdateAllCycles(8);
      mem := mem[Imm16() := reg.a];
      passed := 8;
    }

    /** LD A,(HL+) and LD A,(HL-) */
    method LoadAHl(i: Instr, step: int)
      requires Valid() && i == LdAHl(step)
      modifies this
      ensures Valid() && Abs() == RunLoadAddr(old(Abs()), i)
    {
      var hl := AddrHL(reg);
      reg := Set16(reg.(a := mem[hl]), HL, (hl + step) % 0x10000);
    }

    /** LD (HL+),A and LD (HL-),A */
    method StoreHlA(i: Instr, step: int)
      requires Valid() && i == LdHlA(step)
      modifies this
      ensures Valid() && Abs() == RunLoadAddr(old(Abs()), i)
    {
      var hl := AddrHL(reg);
      mem := mem[hl := reg.a];
      reg := Set16(reg, HL, (hl + step) % 0x10000);
    }

    method LoadIo(i: Instr)
      requires Valid() && IsLoadIo(i)
      modifies this
      ensures Valid() && Abs() == RunLoadIo(old(Abs()), i)
    {
      match i
      case LdhNA =>
        UpdateAllCycles(4);
        mem := mem[0xFF00 + Imm8() := reg.a];
        passed := 4;
      case LdhAN =>
        UpdateAllCycles(4);
        var n := Imm8();
        reg := reg.(a := if 0x10 <= n <= 0x3F then APU_READ else mem[0xFF00 + n]);
        passed := 4;
      case LdhAC =>
        reg := reg.(a := if 0x10 <= reg.c <= 0x3F then APU_READ else mem[0xFF00 + reg.c]);
      case LdhCA =>
        mem := mem[0xFF00 + reg.c := reg.a];
    }

    method Load16(i: Instr)
      requires Valid() && IsLoad16(i)
      modifies this
      ensures Valid() && Abs() == RunLoad16(old(Abs()), i)
    {
      match i
      case Ld16(p) =>
        reg := Set16(reg, p, Imm16());
      case LdSpHl =>
        reg := reg.(sp := AddrHL(reg));
      case LdHlSpN =>
        var r := Alu.LdHlSpImm(reg.sp, Imm8(), reg.flags);
        reg := Set16(reg.(flags := r.f), HL, r.value);
      case LdNnSp =>
        WriteWord(Imm16(), reg.sp);
    }

    method Stack(i: Instr)
      requires Valid() && IsStack(i)
      modifies this
      ensures Valid() && Abs() == RunStack(old(Abs()), i)
    {
      match i
      case Push(p) =>
        Push(Get16(reg, p));
      case Pop(p) =>
        reg := Set16(reg, p, ReadWord(reg.sp));
        reg := reg.(sp := (reg.sp + 2) % 0x10000);
    }

    method Arith(i: Instr)
      requires Valid() && IsArith(i)
      modifies this
      ensures Valid() && Abs() == RunArith(old(Abs()), i)
    {
      if IsAlu8(i) {
        Alu8(i);
      } else if IsAlu16(i) {
        Alu16(i);
      } else {
        Accum(i);
      }
    }

    method Alu8(i: Instr)
      requires Valid() && IsAlu8(i)
      modifies this
      ensures Valid() && Abs() == RunAlu8(old(Abs()), i)
    {
      match i
      case Alu(op, src) =>
        var r := AluResult(op, reg.a, Source(src), reg.flags);
        reg := reg.(a := r.value, flags := r.f);
      case Inc(loc) =>
        IncDec(loc, true);
      case Dec(loc) =>
        IncDec(loc, false);
      case RotA(op) =>
        var r := RotResult(op, reg.a, reg.flags);
        reg := reg.(a := r.value, flags := r.f);
    }

    method Alu16(i: Instr)
      requires Valid() && IsAlu16(i)
      modifies this
      ensures Valid() && Abs() == RunAlu16(old(Abs()), i)
    {
      match i
      case AddHl(p) =>
        var r := Alu.Add16(AddrHL(reg), Get16(reg, p), reg.flags);
        reg := Set16(reg.(flags := r.f), HL, r.value);
      case AddSpN =>
        var r := Alu.AddSpImm(reg.sp, Imm8(), reg.flags);
        reg := reg.(sp := r.value, flags := r.f);
      case Inc16(p) =>
        reg := Set16(reg, p, (Get16(reg, p) + 1) % 0x10000);
      case Dec16(p) =>
        reg := Set16(reg, p, (Get16(reg, p) - 1) % 0x10000);
    }

    method Accum(i: Instr)
      requires Valid() && IsAccum(i)
      modifies this
      ensures Valid() && Abs() == RunAccum(old(Abs()), i)
    {
      match i
      case Daa =>
        var r := Alu.Daa(reg.a, reg.flags);
        reg := reg.(a := r.value, flags := r.f);
      case Cpl =>
        var r := Alu.Cpl(reg.a, reg.flags);
        reg := reg.(a := r.value, flags := r.f);
      case Ccf =>
        reg := reg.(flags := Alu.Ccf(reg.flags));
      case Scf =>
        reg := reg.(flags := Alu.Scf(reg.flags));
    }

    /** INC_r / DEC_r, and INC_memHL / DEC_memHL, which hand 4 cycles on between reading and writing. */
    method IncDec(loc: Loc, inc: bool)
      requires Valid()
      modifies this
      ensures Valid() && Abs() == GbCpuSpec.IncDec(old(Abs()), loc, inc)
    {
      var v := Source(At(loc));
      var r := if inc then Alu.Inc8(v, reg.flags) else Alu.Dec8(v, reg.flags);
      reg := reg.(flags := r.f);
      match loc
      case Reg(x) =>
        reg := SetR(reg, x, r.value);
      case MemHL =>
        UpdateAllCycles(4);
        passed := 4;
        mem := mem[AddrHL(reg) := r.value];
    }

    method Flow(i: Instr)
      requires Valid() && IsFlow(i)
      modifies this, cycles
      ensures Valid() && Abs() == RunFlow(old(Abs()), i)
    {
      if IsJump(i) {
        Jump(i);
      } else {
        CallReturn(i);
      }
    }

    /** The jumps. The taken half of a conditional branch is the unconditional one; the count chosen
      * goes into the instruction's own table entry. */
    method Jump(i: Instr)
      requires Valid() && IsJump(i)
      modifies this, cycles
      ensures Valid() && Abs() == RunJump(old(Abs()), i)
    {
      match i
      case Jp =>
        reg := reg.(pc := Imm16());
      case JpCond(cc) =>
        if Holds(reg, cc) {
          reg := reg.(pc := Imm16());
          cycles[CondIndex(i)] := 16;
        } else {
          cycles[CondIndex(i)] := 12;
        }
      case JpHl =>
        reg := reg.(pc := AddrHL(reg));
      case Jr =>
        reg := reg.(pc := (reg.pc + Alu.Signed8(Imm8())) % 0x10000);
      case JrCond(cc) =>
        if Holds(reg, cc) {
          reg := reg.(pc := (reg.pc + Alu.Signed8(Imm8())) % 0x10000);
          cycles[CondIndex(i)] := 12;
        } else {
          cycles[CondIndex(i)] := 8;
        }
    }

    /** Calls, restarts and returns. */
    method CallReturn(i: Instr)
      requires Valid() && IsCall(i)
      modifies this, cycles
      ensures Valid() && Abs() == RunCall(old(Abs()), i)
    {
      match i
      case Call =>
        CallNn();
      case CallCond(cc) =>
        if Holds(reg, cc) {
          CallNn();
          cycles[CondIndex(i)] := 24;
        } else {
          cycles[CondIndex(i)] := 12;
        }
      case Rst(addr) =>
        if IsWord(addr) {
          Restart(addr);
        }
      case Ret =>
        Ret();
      case RetCond(cc) =>
        if Holds(reg, cc) {
          Ret();
          cycles[CondIndex(i)] := 20;
        } else {
          cycles[CondIndex(i)] := 8;
        }
      case Reti =>
        Ret();
        imeTimer := true;
    }

    /** CALL_nn: the PC pushed, then the immediate read, after the push. */
    method CallNn()
      requires Valid()
      modifies this
      ensures Valid() && Abs() == GbCpuSpec.CallNn(old(Abs()))
    {
      Push(reg.pc);
      reg := reg.(pc := Imm16());
    }

    method Ret()
      requires Valid()
      modifies this
      ensures Valid() && Abs() == PopPc(old(Abs()))
    {
      reg := reg.(pc := ReadWord(reg.sp), sp := (reg.sp + 2) % 0x10000);
    }

    /** restart, which interrupt handling also calls. */
    method Restart(addr: Word)
      requires Valid()
      modifies this
      ensures Valid() && Abs() == GbCpuSpec.Restart(old(Abs()), addr)
    {
      Push(reg.pc);
      reg := reg.(pc := addr);
    }

    method Control(i: Instr, canSwitch: bool)
      requires Valid()
      modifies this
      ensures Valid() && Abs() == RunControl(old(Abs()), i, canSwitch)
    {
      if i.Halt? {
        halted := true;
      } else if i.Stop? {
        Stop(canSwitch);
      } else if i.Di? {
        imeTimer := false;
        ime := false;
      } else if i.Ei? {
        imeTimer := true;
      }
    }

    method Stop(canSwitch: bool)
      requires Valid()
      modifies this
      ensures Valid() && Abs() == GbCpuSpec.Stop(old(Abs()), canSwitch)
    {
      stopped := true;
      if canSwitch {
        var speed := mem[0xFF00 + KEY1];
        if speed % 2 == 1 {
          cgbSpeed := speed < 0x80;
          mem := mem[0xFF00 + KEY1 := if speed < 0x80 then 0x80 else 0];
          stopped := false;
        }
      }
    }

    method Operate(i: Instr, canSwitch: bool)
      requires Valid()
      modifies this, cycles
      ensures Valid() && Abs() == Run(old(Abs()), i, canSwitch)
    {
      if IsLoad(i) {
        Load(i);
      } else if IsArith(i) {
        Arith(i);
      } else if IsFlow(i) {
        Flow(i);
      } else {
        Control(i, canSwitch);
      }
    }

    method OperateExt(i: ExtInstr)
      requires Valid()
      requires i.BitTest? || i.BitRes? || i.BitSet? ==> 0 <= i.bit < 8
      modifies this
      ensures Valid() && Abs() == RunExt(old(Abs()), i)
    {
      match i.loc
      case Reg(x) => ExtOnRegister(i, x);
      case MemHL => ExtOnMemory(i);
    }

    method ExtOnRegister(i: ExtInstr, x: R8)
      requires Valid()
      requires i.BitTest? || i.BitRes? || i.BitSet? ==> 0 <= i.bit < 8
      modifies this
      ensures Valid() && Abs() == RunExtReg(old(Abs()), i, x)
    {
      match i
      case Shift(op, _) =>
        var r := ShiftResult(op, GetR(reg, x), reg.flags);
        reg := SetR(reg.(flags := r.f), x, r.value);
      case BitTest(bit, _) =>
        reg := reg.(flags := Alu.TestBit(GetR(reg, x), bit, reg.flags));
      case BitRes(bit, _) =>
        reg := SetR(reg, x, Alu.ResBit(GetR(reg, x), bit));
      case BitSet(bit, _) =>
        reg := SetR(reg, x, Alu.SetBit(GetR(reg, x), bit));
    }

    method ExtOnMemory(i: ExtInstr)
      requires Valid()
      requires i.BitTest? || i.BitRes? || i.BitSet? ==> 0 <= i.bit < 8
      modifies this
      ensures Valid() && Abs() == RunExtMem(old(Abs()), i)
    {
      var hl := AddrHL(reg);
      UpdateAllCycles(4);
      match i
      case Shift(op, _) =>
        var r := ShiftResult(op, mem[hl], reg.flags);
        reg := reg.(flags := r.f);
        UpdateAllCycles(4);
        mem := mem[hl := r.value];
      case BitTest(bit, _) =>
        reg := reg.(flags := Alu.TestBit(mem[hl], bit, reg.flags));
      case BitRes(bit, _) =>
        var v := Alu.ResBit(mem[hl], bit);
        UpdateAllCycles(4);
        mem := mem[hl := v];
      case BitSet(bit, _) =>
        var v := Alu.SetBit(mem[hl], bit);
        UpdateAllCycles(4);
        mem := mem[hl := v];
    }

    // ---------------------------------------------------------------- the entry points

    /** exec_opcode */
    method ExecOpcode(skipBug: bool, canSwitch: bool) returns (n: int)
      requires Valid()
      modifies this, cycles
      ensures Valid() && Step(Abs(), n) == Exec(old(Abs()), skipBug, canSwitch)
    {
      var op := Fetch(skipBug);
      if op != 0xCB {
        n := ExecMain(op, Ins(op).operation, canSwitch);
      } else {
        n := ExecPrefixed();
      }
    }

    /** The start of exec_opcode: the pending enable promoted, the opcode fetched and PC moved past it. */
    method Fetch(skipBug: bool) returns (op: Byte)
      requires Valid()
      modifies this
      ensures Valid() && op == Read(old(Abs()), old(reg.pc))
      ensures Abs() == Advance(Promote(old(Abs())), op, skipBug)
    {
      PromoteIme();
      op := mem[reg.pc];
      MovePast(op, skipBug);
    }

    /** A pending enable becomes the master enable. */
    method PromoteIme()
      requires Valid()
      modifies this
      ensures Valid() && Abs() == Promote(old(Abs()))
    {
      if imeTimer {
        ime := true;
        imeTimer := false;
      }
    }

    /** PC moves past the instruction op, from one byte early under the halt bug. */
    method MovePast(op: Byte, skipBug: bool)
      requires Valid()
      modifies this
      ensures Valid() && Abs() == Advance(old(Abs()), op, skipBug)
    {
      reg := reg.(pc := NextPc(reg.pc, op, skipBug));
    }

    /** The rest of exec_opcode for a main-table opcode. */
    method ExecMain(op: Byte, i: Instr, canSwitch: bool) returns (n: int)
      requires Valid()
      modifies this, cycles
      ensures Valid() && Step(Abs(), n) == GbCpuSpec.ExecMain(old(Abs()), op, i, canSwitch)
    {
      Operate(i, canSwitch);
      n := Settle(op);
    }

    /** The end of exec_opcode: the timers get the table's cycles for op less those already handed on. */
    method Settle(op: Byte) returns (n: int)
      requires Valid()
      modifies this
      ensures Valid() && Step(Abs(), n) == Finish(old(Abs()), op)
    {
      ghost var t := Abs();
      n := cycles[op];
      assert n == t.cycles[op];
      UpdateAllCycles(n - passed);
      passed := 0;
      assert Abs() == Tick(t, n - t.passed).(passed := 0);
    }

    /** The rest of exec_opcode for the 0xCB prefix. */
    method ExecPrefixed() returns (n: int)
      requires Valid()
      modifies this
      ensures Valid() && Step(Abs(), n) == ExecExt(old(Abs()))
    {
      var e := ExtDecode(Imm8());
      OperateExt(e.operation);
      UpdateAllCycles(8);
      n := e.cycles;
    }

    method ResetCpu(cgb: bool)
      requires Valid()
      modifies this
      ensures Valid() && Abs() == Reset(old(Abs()), cgb)
    {
      cgbSpeed := false;
      reg := Set16(reg, AF, if cgb then 0x11B0 else 0x01B0);
      reg := Set16(reg, BC, 0x0013);
      reg := Set16(reg, DE, 0x00D8);
      reg := Set16(reg, HL, 0x014D);
      reg := reg.(pc := 0x0000, sp := 0xFFFE);
      halted := false;
      stopped := false;
    }

    /** master_interrupts_enabled */
    method MasterInterruptsEnabled() returns (enabled: bool)
      ensures enabled == Abs().ime
    {
      enabled := ime;
    }

    method MasterInterruptsDisable()
      requires Valid()
      modifies this
      ensures Valid() && Abs() == old(Abs()).(ime := false)
    {
      ime := false;
    }

    method MasterInterruptsEnable()
      requires Valid()
      modifies this
      ensures Valid() && Abs() == old(Abs()).(ime := true)
    {
      ime := true;
    }
  }
}
