/** The CHIP-8 interpreter's state and the effect of one loop iteration on it, as pure functions: the
  * specification the imperative interpreter is proved against.  Out-of-bounds array accesses, which the
  * C code does not guard, are a Fault outcome. */
module C8Machine {
  import opened C8Opcodes
  import opened C8Display
  import opened C8Input
  import C8Sprite

  const MEM_SIZE: nat := 4096
  const STACK_SIZE: nat := 16
  /** The first address of the program image, and the initial PC and I. */
  const PROGRAM_START: nat := 512
  /** CPU cycles per timer tick. */
  const TIMER_RATE: nat := 10
  /** The ranges of the 16-bit registers and of the native unsigned cycle counter. */
  const U16_RANGE: nat := 0x1_0000
  const UINTN_RANGE: nat := 0x1_0000_0000_0000_0000

  datatype ExecState = Normal | AwaitsKey | Stop

  /** The interpreter's status values. */
  datatype IntStatus = IntOk | IntInitFailed | IntExecFailed

  /** The interpreter state, field for field; `screen` is the display buffer the drawing opcodes change and
    * `beeps` counts the cycles on which the sound was started.  PC, I and the stack entries are 16-bit
    * values kept as integers; their ranges, and those of the other integer fields, are part of `Wf`. */
  datatype Machine = Machine(mem: seq<bv8>, stack: seq<int>, v: seq<bv8>, pc: int, i: int,
                             delay: bv8, sound: bv8, exec: ExecState, lastKey: int, x: int, sp: int,
                             cycle: int, rate: int, screen: seq<Px>, beeps: int)

  /** Every stack entry is a 16-bit value. */
  predicate StackWords(stack: seq<int>)
  {
    forall k :: 0 <= k < |stack| ==> 0 <= stack[k] < U16_RANGE
  }

  /** The shapes every reachable state has. */
  predicate Wf(m: Machine)
  {
    |m.mem| == MEM_SIZE && |m.stack| == STACK_SIZE && StackWords(m.stack) && |m.v| == 16
    && |m.screen| == CELLS && 0 <= m.pc < U16_RANGE && 0 <= m.i < U16_RANGE
    && 0 <= m.lastKey <= KB_ERROR && 0 <= m.x < 16 && 0 <= m.sp <= STACK_SIZE
    && 0 <= m.cycle < UINTN_RANGE && m.rate > 0 && m.beeps >= 0
  }

  datatype Outcome = Ok(m: Machine) | Fault

  /** Assignment to a 16-bit register: the value modulo 2^16. */
  function Wrap16(n: int): (r: int)
    ensures 0 <= r < U16_RANGE
    ensures 0 <= n < U16_RANGE ==> r == n
  {
    n % U16_RANGE
  }

  /** The bytes of `mem` with V0..Vx stored from address `i` on. */
  function StoreRegs(mem: seq<bv8>, i: nat, v: seq<bv8>, x: nat): (r: seq<bv8>)
    requires x < |v| && i + x < |mem|
    ensures |r| == |mem|
    ensures forall k :: 0 <= k < |mem| ==> r[k] == if i <= k <= i + x then v[k - i] else mem[k]
  {
    seq(|mem|, k requires 0 <= k < |mem| => if i <= k <= i + x then v[k - i] else mem[k])
  }

  /** The registers `v` with V0..Vx loaded from address `i` on. */
  function LoadRegs(v: seq<bv8>, mem: seq<bv8>, i: nat, x: nat): (r: seq<bv8>)
    requires x < |v| && i + x < |mem|
    ensures |r| == |v|
    ensures forall c :: 0 <= c < |v| ==> r[c] == if c <= x then mem[i + c] else v[c]
  {
    seq(|v|, c requires 0 <= c < |v| => if c <= x then mem[i + c] else v[c])
  }

  /** A timer's tick: a nonzero timer counts down by one. */
  function Tick(t: bv8): (r: bv8)
    ensures t == 0 ==> r == 0
    ensures t != 0 ==> r < t && r + 1 == t
  {
    if t > 0 then t - 1 else t
  }

  /** 00E0: the console is cleared and, when that succeeds, the buffer. */
  function Exec00E0(m: Machine, w: bv16, clearOk: bool): (r: Outcome)
    requires Wf(m)
    ensures r.Ok? && Wf(r.m)
  {
    Ok(m.(screen := if clearOk then seq(CELLS, _ => Blank) else m.screen, pc := Wrap16(m.pc + 2)))
  }

  /** 00EE: PC is popped from the stack; a pop from the empty stack indexes outside it. */
  function Exec00EE(m: Machine, w: bv16): (r: Outcome)
    requires Wf(m)
    ensures r.Ok? ==> Wf(r.m)
  {
    if m.sp == 0 then Fault else Ok(m.(sp := m.sp - 1, pc := m.stack[m.sp - 1]))
  }

  /** 0NNN, a call of machine code, stops the interpreter. */
  function Exec0NNN(m: Machine, w: bv16): (r: Outcome)
    requires Wf(m)
    ensures r.Ok? && Wf(r.m)
  {
    Ok(m.(exec := Stop))
  }

  /** 1NNN: a jump to NNN. */
  function Exec1NNN(m: Machine, w: bv16): (r: Outcome)
    requires Wf(m)
    ensures r.Ok? && Wf(r.m)
  {
    Ok(m.(pc := FieldNNN(w)))
  }

  /** 2NNN: the address after the call is pushed and PC set to NNN; a push on the full stack indexes outside it. */
  function Exec2NNN(m: Machine, w: bv16): (r: Outcome)
    requires Wf(m)
    ensures r.Ok? ==> Wf(r.m)
  {
    if m.sp >= STACK_SIZE then Fault
    else Ok(m.(stack := m.stack[m.sp := Wrap16(m.pc + 2)], sp := m.sp + 1, pc := FieldNNN(w)))
  }

  /** BNNN: a jump to NNN + V0, at most 0x0FFF + 0xFF and so within 16 bits. */
  function ExecBNNN(m: Machine, w: bv16): (r: Outcome)
    requires Wf(m)
    ensures r.Ok? && Wf(r.m)
  {
    Ok(m.(pc := FieldNNN(w) + m.v[0] as int))
  }

  /** 3XNN: the next instruction is skipped when VX equals NN. */
  function Exec3XNN(m: Machine, w: bv16): (r: Outcome)
    requires Wf(m)
    ensures r.Ok? && Wf(r.m)
  {
    Ok(m.(pc := if m.v[FieldX(w)] == FieldNN(w) then Wrap16(m.pc + 4) else Wrap16(m.pc + 2)))
  }

  /** 4XNN: the next instruction is skipped when VX differs from NN. */
  function Exec4XNN(m: Machine, w: bv16): (r: Outcome)
    requires Wf(m)
    ensures r.Ok? && Wf(r.m)
  {
    Ok(m.(pc := if m.v[FieldX(w)] != FieldNN(w) then Wrap16(m.pc + 4) else Wrap16(m.pc + 2)))
  }

  /** 5XY0: the next instruction is skipped when VX equals VY. */
  function Exec5XY0(m: Machine, w: bv16): (r: Outcome)
    requires Wf(m)
    ensures r.Ok? && Wf(r.m)
  {
    Ok(m.(pc := if m.v[FieldX(w)] == m.v[FieldY(w)] then Wrap16(m.pc + 4) else Wrap16(m.pc + 2)))
  }

  /** 9XY0: the next instruction is skipped when VX differs from VY. */
  function Exec9XY0(m: Machine, w: bv16): (r: Outcome)
    requires Wf(m)
    ensures r.Ok? && Wf(r.m)
  {
    Ok(m.(pc := if m.v[FieldX(w)] != m.v[FieldY(w)] then Wrap16(m.pc + 4) else Wrap16(m.pc + 2)))
  }

  /** EX9E: the next instruction is skipped when the latched key is VX, and the key is then consumed. */
  function ExecEX9E(m: Machine, w: bv16): (r: Outcome)
    requires Wf(m)
    ensures r.Ok? && Wf(r.m)
  {
    if m.lastKey == m.v[FieldX(w)] as int then Ok(m.(pc := Wrap16(m.pc + 4), lastKey := KB_PASS))
    else Ok(m.(pc := Wrap16(m.pc + 2)))
  }

  /** EXA1: the next instruction is skipped unless the latched key is VX, which is then consumed. */
  function ExecEXA1(m: Machine, w: bv16): (r: Outcome)
    requires Wf(m)
    ensures r.Ok? && Wf(r.m)
  {
    if m.lastKey != m.v[FieldX(w)] as int then Ok(m.(pc := Wrap16(m.pc + 4)))
    else Ok(m.(pc := Wrap16(m.pc + 2), lastKey := KB_PASS))
  }

  /** 6XNN: VX := NN. */
  function Exec6XNN(m: Machine, w: bv16): (r: Outcome)
    requires Wf(m)
    ensures r.Ok? && Wf(r.m)
  {
    Ok(m.(v := m.v[FieldX(w) := FieldNN(w)], pc := Wrap16(m.pc + 2)))
  }

  /** 7XNN: VX := VX + NN modulo 256; VF is not touched. */
  function Exec7XNN(m: Machine, w: bv16): (r: Outcome)
    requires Wf(m)
    ensures r.Ok? && Wf(r.m)
  {
    Ok(m.(v := m.v[FieldX(w) := m.v[FieldX(w)] + FieldNN(w)], pc := Wrap16(m.pc + 2)))
  }

  /** 8XY0: VX := VY. */
  function Exec8XY0(m: Machine, w: bv16): (r: Outcome)
    requires Wf(m)
    ensures r.Ok? && Wf(r.m)
  {
    Ok(m.(v := m.v[FieldX(w) := m.v[FieldY(w)]], pc := Wrap16(m.pc + 2)))
  }

  /** 8XY1: VX := VX or VY. */
  function Exec8XY1(m: Machine, w: bv16): (r: Outcome)
    requires Wf(m)
    ensures r.Ok? && Wf(r.m)
  {
    Ok(m.(v := m.v[FieldX(w) := m.v[FieldX(w)] | m.v[FieldY(w)]], pc := Wrap16(m.pc + 2)))
  }

  /** 8XY2: VX := VX and VY. */
  function Exec8XY2(m: Machine, w: bv16): (r: Outcome)
    requires Wf(m)
    ensures r.Ok? && Wf(r.m)
  {
    Ok(m.(v := m.v[FieldX(w) := m.v[FieldX(w)] & m.v[FieldY(w)]], pc := Wrap16(m.pc + 2)))
  }

  /** 8XY3: VX := VX xor VY. */
  function Exec8XY3(m: Machine, w: bv16): (r: Outcome)
    requires Wf(m)
    ensures r.Ok? && Wf(r.m)
  {
    Ok(m.(v := m.v[FieldX(w) := m.v[FieldX(w)] ^ m.v[FieldY(w)]], pc := Wrap16(m.pc + 2)))
  }

  /** ANNN: I := NNN. */
  function ExecANNN(m: Machine, w: bv16): (r: Outcome)
    requires Wf(m)
    ensures r.Ok? && Wf(r.m)
  {
    Ok(m.(i := FieldNNN(w), pc := Wrap16(m.pc + 2)))
  }

  /** CXNN: VX := NN and a "random" byte, the low byte of the cycle count divided by 100. */
  function ExecCXNN(m: Machine, w: bv16): (r: Outcome)
    requires Wf(m)
    ensures r.Ok? && Wf(r.m)
  {
    Ok(m.(v := m.v[FieldX(w) := ((m.cycle / 100) % 256) as bv8 & FieldNN(w)], pc := Wrap16(m.pc + 2)))
  }

  /** FX07: VX := the delay timer. */
  function ExecFX07(m: Machine, w: bv16): (r: Outcome)
    requires Wf(m)
    ensures r.Ok? && Wf(r.m)
  {
    Ok(m.(v := m.v[FieldX(w) := m.delay], pc := Wrap16(m.pc + 2)))
  }

  /** FX0A: the loop is made to wait for a key for VX. */
  function ExecFX0A(m: Machine, w: bv16): (r: Outcome)
    requires Wf(m)
    ensures r.Ok? && Wf(r.m)
  {
    Ok(m.(x := FieldX(w), exec := AwaitsKey, pc := Wrap16(m.pc + 2)))
  }

  /** FX15: the delay timer := VX. */
  function ExecFX15(m: Machine, w: bv16): (r: Outcome)
    requires Wf(m)
    ensures r.Ok? && Wf(r.m)
  {
    Ok(m.(delay := m.v[FieldX(w)], pc := Wrap16(m.pc + 2)))
  }

  /** FX18: the sound timer := VX. */
  function ExecFX18(m: Machine, w: bv16): (r: Outcome)
    requires Wf(m)
    ensures r.Ok? && Wf(r.m)
  {
    Ok(m.(sound := m.v[FieldX(w)], pc := Wrap16(m.pc + 2)))
  }

  /** FX1E: I := I + VX modulo 2^16. */
  function ExecFX1E(m: Machine, w: bv16): (r: Outcome)
    requires Wf(m)
    ensures r.Ok? && Wf(r.m)
  {
    Ok(m.(i := Wrap16(m.i + m.v[FieldX(w)] as int), pc := Wrap16(m.pc + 2)))
  }

  /** FX29: I := 5 VX, the address of the font glyph of digit VX; at most 1275, so within 16 bits. */
  function ExecFX29(m: Machine, w: bv16): (r: Outcome)
    requires Wf(m)
    ensures r.Ok? && Wf(r.m)
  {
    Ok(m.(i := m.v[FieldX(w)] as int * 5, pc := Wrap16(m.pc + 2)))
  }

  /** FX33: the hundreds, tens and units digits of VX at I, I + 1 and I + 2; a byte beyond memory is a fault. */
  function ExecFX33(m: Machine, w: bv16): (r: Outcome)
    requires Wf(m)
    ensures r.Ok? ==> Wf(r.m)
  {
    if m.i + 2 >= MEM_SIZE then Fault
    else
      var d := m.v[FieldX(w)];
      Ok(m.(mem := m.mem[m.i := d / 100][m.i + 1 := (d % 100) / 10][m.i + 2 := d % 10], pc := Wrap16(m.pc + 2)))
  }

  /** FX55: V0..VX are stored from I on and I is left just past them; a byte beyond memory is a fault. */
  function ExecFX55(m: Machine, w: bv16): (r: Outcome)
    requires Wf(m)
    ensures r.Ok? ==> Wf(r.m)
  {
    if m.i + FieldX(w) >= MEM_SIZE then Fault
    else Ok(m.(mem := StoreRegs(m.mem, m.i, m.v, FieldX(w)), i := Wrap16(m.i + FieldX(w) + 1), pc := Wrap16(m.pc + 2)))
  }

  /** FX65: V0..VX are loaded from I on and I is left just past them; a byte beyond memory is a fault. */
  function ExecFX65(m: Machine, w: bv16): (r: Outcome)
    requires Wf(m)
    ensures r.Ok? ==> Wf(r.m)
  {
    if m.i + FieldX(w) >= MEM_SIZE then Fault
    else Ok(m.(v := LoadRegs(m.v, m.mem, m.i, FieldX(w)), i := Wrap16(m.i + FieldX(w) + 1), pc := Wrap16(m.pc + 2)))
  }

  /** The groups of the instruction table the interpreter's handlers fall into. */
  predicate IsFlow(op: Opcode)
  {
    op.Op00E0? || op.Op00EE? || op.Op0NNN? || op.Op1NNN? || op.Op2NNN? || op.OpBNNN?
  }

  predicate IsSkip(op: Opcode)
  {
    op.Op3XNN? || op.Op4XNN? || op.Op5XY0? || op.Op9XY0? || op.OpEX9E? || op.OpEXA1?
  }

  predicate IsLoad(op: Opcode)
  {
    op.Op6XNN? || op.Op7XNN? || op.Op8XY0? || op.Op8XY1? || op.Op8XY2? || op.Op8XY3? || op.OpANNN? || op.OpCXNN?
  }

  predicate IsMisc(op: Opcode)
  {
    op.OpFX07? || op.OpFX0A? || op.OpFX15? || op.OpFX18? || op.OpFX1E? || op.OpFX29?
  }

  predicate IsMem(op: Opcode)
  {
    op.OpFX33? || op.OpFX55? || op.OpFX65?
  }

  /** The handlers that change the flow of control, and 00E0. */
  function ExecFlow(m: Machine, op: Opcode, w: bv16, clearOk: bool): (r: Outcome)
    requires Wf(m) && IsFlow(op)
    ensures r.Ok? ==> Wf(r.m)
  {
    match op
    case Op00E0 => Exec00E0(m, w, clearOk)
    case Op00EE => Exec00EE(m, w)
    case Op0NNN => Exec0NNN(m, w)
    case Op1NNN => Exec1NNN(m, w)
    case Op2NNN => Exec2NNN(m, w)
    case OpBNNN => ExecBNNN(m, w)
  }

  /** The conditional skips. */
  function ExecSkip(m: Machine, op: Opcode, w: bv16): (r: Outcome)
    requires Wf(m) && IsSkip(op)
    ensures r.Ok? && Wf(r.m)
  {
    match op
    case Op3XNN => Exec3XNN(m, w)
    case Op4XNN => Exec4XNN(m, w)
    case Op5XY0 => Exec5XY0(m, w)
    case Op9XY0 => Exec9XY0(m, w)
    case OpEX9E => ExecEX9E(m, w)
    case OpEXA1 => ExecEXA1(m, w)
  }

  /** The register loads and the logic operations, which leave VF alone unless it is the target. */
  function ExecLoad(m: Machine, op: Opcode, w: bv16): (r: Outcome)
    requires Wf(m) && IsLoad(op)
    ensures r.Ok? && Wf(r.m)
  {
    match op
    case Op6XNN => Exec6XNN(m, w)
    case Op7XNN => Exec7XNN(m, w)
    case Op8XY0 => Exec8XY0(m, w)
    case Op8XY1 => Exec8XY1(m, w)
    case Op8XY2 => Exec8XY2(m, w)
    case Op8XY3 => Exec8XY3(m, w)
    case OpANNN => ExecANNN(m, w)
    case OpCXNN => ExecCXNN(m, w)
  }

  /** The arithmetic and shift opcodes. */
  predicate IsArith(op: Opcode)
  {
    op.Op8XY4? || op.Op8XY5? || op.Op8XY6? || op.Op8XY7? || op.Op8XYE?
  }

  /** The flag an arithmetic opcode leaves in VF, from VX and VY as they were before it. */
  function AluFlag(op: Opcode, vx: bv8, vy: bv8): (f: bv8)
    requires IsArith(op)
    ensures f <= 1
  {
    match op
    case Op8XY4 => if vx as bv16 + vy as bv16 > 255 then 1 else 0
    case Op8XY5 => if vx < vy then 0 else 1
    case Op8XY6 => vx & 1
    case Op8XY7 => if vy < vx then 0 else 1
    case Op8XYE => vy >> 7
  }

  /** The value an arithmetic opcode stores in VX, from VX and VY as they are once VF has been written. */
  function AluResult(op: Opcode, vx: bv8, vy: bv8): bv8
    requires IsArith(op)
  {
    match op
    case Op8XY4 => vx + vy
    case Op8XY5 => vx - vy
    case Op8XY6 => vx >> 1
    case Op8XY7 => vy - vx
    case Op8XYE => vy << 1
  }

  /** The arithmetic and shifts: VF is written first, then VX from the registers as they are after that. */
  function ExecArith(m: Machine, op: Opcode, w: bv16): (r: Outcome)
    requires Wf(m) && IsArith(op)
    ensures r.Ok? ==> Wf(r.m)
  {
    var x, y := FieldX(w), FieldY(w);
    var v1 := m.v[15 := AluFlag(op, m.v[x], m.v[y])];
    Ok(m.(v := v1[x := AluResult(op, v1[x], v1[y])], pc := Wrap16(m.pc + 2)))
  }

  /** DXYN: VF is cleared, the sprite drawn at the coordinates then in VX and VY, and VF set to whether any
    * filled pixel was cleared; a sprite row beyond memory is a fault. */
  function ExecDraw(m: Machine, w: bv16): (r: Outcome)
    requires Wf(m)
    ensures r.Ok? ==> Wf(r.m)
  {
    var v1 := m.v[15 := 0];
    var d := C8Sprite.Draw(m.screen, m.mem, m.i, v1[FieldX(w)] as int, v1[FieldY(w)] as int, FieldN(w));
    if d.None? then Fault
    else Ok(m.(screen := d.value.0, v := v1[15 := if d.value.1 then 1 else 0], pc := Wrap16(m.pc + 2)))
  }

  /** ExecDraw unfolded once, for callers that track the registers and the buffer separately. */
  lemma ExecDrawUnfold(m: Machine, w: bv16)
    requires Wf(m)
    ensures var v1 := m.v[15 := 0];
            var d := C8Sprite.Draw(m.screen, m.mem, m.i, v1[FieldX(w)] as int, v1[FieldY(w)] as int, FieldN(w));
            ExecDraw(m, w) == if d.None? then Fault
                              else Ok(m.(screen := d.value.0, v := v1[15 := if d.value.1 then 1 else 0], pc := Wrap16(m.pc + 2)))
  {
  }

  /** The timer, key-wait and I-register handlers. */
  function ExecMisc(m: Machine, op: Opcode, w: bv16): (r: Outcome)
    requires Wf(m) && IsMisc(op)
    ensures r.Ok? && Wf(r.m)
  {
    match op
    case OpFX07 => ExecFX07(m, w)
    case OpFX0A => ExecFX0A(m, w)
    case OpFX15 => ExecFX15(m, w)
    case OpFX18 => ExecFX18(m, w)
    case OpFX1E => ExecFX1E(m, w)
    case OpFX29 => ExecFX29(m, w)
  }

  /** The memory handlers. */
  function ExecMem(m: Machine, op: Opcode, w: bv16): (r: Outcome)
    requires Wf(m) && IsMem(op)
    ensures r.Ok? ==> Wf(r.m)
  {
    match op
    case OpFX33 => ExecFX33(m, w)
    case OpFX55 => ExecFX55(m, w)
    case OpFX65 => ExecFX65(m, w)
  }

  /** The handler of opcode `op` for the word `w` fetched at PC; `clearOk` is the outcome of clearing the
    * console for 00E0. */
  function Exec(m: Machine, op: Opcode, w: bv16, clearOk: bool): (r: Outcome)
    requires Wf(m)
    ensures r.Ok? ==> Wf(r.m)
  {
    if IsFlow(op) then ExecFlow(m, op, w, clearOk)
    else if IsSkip(op) then ExecSkip(m, op, w)
    else if IsLoad(op) then ExecLoad(m, op, w)
    else if IsArith(op) then ExecArith(m, op, w)
    else if op.OpDXYN? then ExecDraw(m, w)
    else if IsMisc(op) then ExecMisc(m, op, w)
    else ExecMem(m, op, w)
  }

  /** What one iteration of the interpreter loop ends in: the loop goes on, returns a status, or reaches an
    * access the C code leaves undefined. */
  datatype CycleResult = Running(m: Machine) | Exited(status: IntStatus, m: Machine) | Crashed

  /** The timers, which tick down on every `rate`-th cycle. */
  function Timers(m: Machine): (r: Machine)
    requires m.rate > 0
    ensures r == m.(sound := r.sound, delay := r.delay)
  {
    if m.cycle % m.rate == 0 then m.(sound := Tick(m.sound), delay := Tick(m.delay)) else m
  }

  /** Fetching the big-endian word at PC, decoding it and executing it: an unknown word stops the
    * interpreter. */
  function Step(m: Machine, clearOk: bool): (r: CycleResult)
    requires Wf(m)
    ensures r.Running? ==> Wf(r.m)
    ensures !r.Exited?
  {
    if m.pc + 1 >= MEM_SIZE then Crashed
    else
      var w := Word(m.mem[m.pc], m.mem[m.pc + 1]);
      var op := Dispatch(w);
      if op.None? then Running(m.(exec := Stop))
      else
        var o := Exec(m, op.value, w, clearOk);
        if o.Fault? then Crashed else Running(o.m)
  }

  /** A beep while the sound timer runs, then the timers. */
  function Tally(m: Machine): (r: Machine)
    requires m.rate > 0
    ensures r == m.(beeps := r.beeps, sound := r.sound, delay := r.delay)
    ensures r.beeps == if m.sound != 0 then m.beeps + 1 else m.beeps
  {
    Timers(m.(beeps := if m.sound != 0 then m.beeps + 1 else m.beeps))
  }

  /** The end of an iteration: a waiting interpreter is handed the latched key, if any, and otherwise the next
    * instruction executes. */
  function Advance(m: Machine, clearOk: bool): (r: CycleResult)
    requires Wf(m)
    ensures r.Running? ==> Wf(r.m)
  {
    if m.exec == AwaitsKey then
      if m.lastKey == KB_PASS then Running(m)
      else Running(m.(v := m.v[m.x := m.lastKey as bv8], exec := Normal))
    else Step(m, clearOk)
  }

  /** The rest of an iteration once the key has been taken: a stopped interpreter exits, the sound and the
    * timers run, then either the awaited key is delivered or the next instruction executes. */
  function Resume(m: Machine, clearOk: bool): (r: CycleResult)
    requires Wf(m)
    ensures r.Running? ==> Wf(r.m)
  {
    if m.exec == Stop then Exited(IntExecFailed, m)
    else Advance(Tally(m), clearOk)
  }

  /** One iteration of the interpreter loop, given the terminal key code read in it and the outcome of a
    * console clear it may request: the cycle counter advances, Escape exits, and a keypad key is latched. */
  function Cycle(m: Machine, key: int, clearOk: bool): (r: CycleResult)
    requires Wf(m)
    ensures r.Running? ==> Wf(r.m)
  {
    var m1 := m.(cycle := (m.cycle + 1) % UINTN_RANGE);
    var e := InputNext(key);
    if e == KB_ESC then Exited(IntOk, m1)
    else if e == KB_ERROR then Exited(IntExecFailed, m1)
    else Resume(if e != KB_PASS then m1.(lastKey := e) else m1, clearOk)
  }

  /** The loop over a finite sequence of (key, clear outcome) inputs, one per iteration; Running when the
    * inputs run out first. */
  function Run(m: Machine, inputs: seq<(int, bool)>): (r: CycleResult)
    requires Wf(m)
    ensures r.Running? ==> Wf(r.m)
    decreases |inputs|
  {
    if |inputs| == 0 then Running(m)
    else
      match Cycle(m, inputs[0].0, inputs[0].1)
      case Running(m1) => Run(m1, inputs[1..])
      case Exited(st, m1) => Exited(st, m1)
      case Crashed => Crashed
  }

  /** What initialisation ends in: a ready state, a failed read, or an image too large for memory. */
  datatype InitResult = Ready(m: Machine) | InitFailed | Overrun

  /** `bytes` copied into `mem` from address `at` on. */
  function Load(mem: seq<bv8>, at: nat, bytes: seq<bv8>): (r: seq<bv8>)
    requires at + |bytes| <= |mem|
    ensures |r| == |mem|
    ensures forall k :: 0 <= k < |mem| ==> r[k] == if at <= k < at + |bytes| then bytes[k - at] else mem[k]
  {
    mem[..at] + bytes + mem[at + |bytes|..]
  }

  /** The state the command starts from: zeroed, with the registers reset as initialisation does. */
  function Reset(): (m: Machine)
    ensures Wf(m) && m.pc == PROGRAM_START && m.i == PROGRAM_START && m.sp == 0 && m.exec == Normal
  {
    Machine(seq(MEM_SIZE, _ => 0), seq(STACK_SIZE, _ => 0), seq(16, _ => 0), PROGRAM_START,
            PROGRAM_START, 0, 0, Normal, 0, 0, 0, 0, TIMER_RATE, seq(CELLS, _ => Blank), 0)
  }

  /** Initialisation: the registers are reset, then the ROM's bytes are read to address 0 and the program
    * image's to address 512.  `rom` and `image` are what the reads deliver, `None` when a read fails.  The
    * reads do not limit their length to the room left, so a longer file runs past the end of memory. */
  function Init(rom: Option<seq<bv8>>, image: Option<seq<bv8>>): (r: InitResult)
    ensures r.Ready? ==> Wf(r.m)
  {
    var zero := Reset();
    if rom.None? then InitFailed
    else if |rom.value| > MEM_SIZE then Overrun
    else
      var m1 := zero.(mem := Load(zero.mem, 0, rom.value));
      if image.None? then InitFailed
      else if PROGRAM_START + |image.value| > MEM_SIZE then Overrun
      else Ready(m1.(mem := Load(m1.mem, PROGRAM_START, image.value)))
  }
}
