/** The CHIP-8 interpreter as the C code runs it: one state record whose registers, stack and memory the
  * opcode handlers update in place, and the loop that reads a key, runs the timers and dispatches the next
  * instruction.  Each handler is proved to have the effect the machine model gives it. */
module C8Interpreter {
  import opened C8Opcodes
  import opened C8Display
  import opened C8Input
  import opened C8Machine
  import C8Sprite

  /** How one pass through the loop body ends: the loop goes on, returns a status, or performs an access the
    * C code leaves undefined. */
  datatype LoopStatus = Continues | Returns(status: IntStatus) | Undefined

  /** The loop's outcome `r`, with the state `m` it leaves, is the model's outcome `c`. */
  ghost predicate Reflects(r: LoopStatus, c: CycleResult, m: Machine)
  {
    match c
    case Running(m1) => r == Continues && m == m1
    case Exited(st, m1) => r == Returns(st) && m == m1
    case Crashed => r == Undefined
  }

  /** `((row >> b) & 1) == 1`, the handler's bit test, is bit `b` of the row. */
  lemma ShiftedBit(row: bv8, b: nat)
    requires b < 8
    ensures ((row >> b) & 1 == 1) == C8Sprite.Bit(row, b)
  {
    if b == 0 {
    } else if b == 1 {
    } else if b == 2 {
    } else if b == 3 {
    } else if b == 4 {
    } else if b == 5 {
    } else if b == 6 {
    } else {
    }
  }

  /** The interpreter state record, with the static display buffer the drawing handlers write and a count of
    * the beeps the loop has started. */
  class Interpreter {
    const memory: array<bv8>
    const stack: array<int>
    const v: array<bv8>
    var pc: int
    var i: int
    var delay: bv8
    var sound: bv8
    var exec: ExecState
    var lastKey: int
    var x: int
    var sp: int
    var cycle: int
    var rate: int
    var beeps: int
    const display: Display

    /** The state as a machine-model value. */
    ghost function Abs(): Machine
      reads this, memory, stack, v, display, display.cells
    {
      Machine(memory[..], stack[..], v[..], pc, i, delay, sound, exec, lastKey, x, sp, cycle, rate,
              display.cells[..], beeps)
    }

    /** The arrays have the sizes of the record's fields and are distinct. */
    ghost predicate Shaped()
      reads this, display
    {
      memory.Length == MEM_SIZE && stack.Length == STACK_SIZE && v.Length == 16 && memory != v
      && stack as object != v as object && stack as object != memory as object
      && display.cells as object != v as object && display.cells as object != memory as object
      && display.cells as object != stack as object
      && display.Valid()
    }

    ghost predicate Valid()
      reads this, memory, stack, v, display, display.cells
    {
      Shaped() && Wf(Abs())
    }

    /** The zero-initialised record the command declares. */
    ghost predicate Zeroed()
      reads this, memory, stack, v, display
    {
      Shaped() && (forall k :: 0 <= k < MEM_SIZE ==> memory[k] == 0)
      && (forall k :: 0 <= k < STACK_SIZE ==> stack[k] == 0) && (forall k :: 0 <= k < 16 ==> v[k] == 0)
      && pc == 0 && i == 0 && delay == 0 && sound == 0 && exec == Normal && lastKey == 0 && x == 0 && sp == 0
      && cycle == 0 && rate == 0 && beeps == 0
    }

    constructor (display: Display)
      requires display.Valid()
      ensures Zeroed() && this.display == display
    {
      memory := new bv8[MEM_SIZE](_ => 0);
      stack := new int[STACK_SIZE](_ => 0);
      v := new bv8[16](_ => 0);
      pc, i, delay, sound, exec, lastKey, x, sp, cycle, rate, beeps := 0, 0, 0, 0, Normal, 0, 0, 0, 0, 0, 0;
      this.display := display;
    }

    /** Copying `bytes` into memory from address `at` on. */
    method LoadBytes(at: nat, bytes: seq<bv8>)
      requires Shaped() && at + |bytes| <= MEM_SIZE
      modifies memory
      ensures memory[..] == Load(old(memory[..]), at, bytes)
    {
      var k := 0;
      while k < |bytes|
        invariant 0 <= k <= |bytes|
        invariant forall j :: 0 <= j < MEM_SIZE ==> memory[j] == if at <= j < at + k then bytes[j - at] else old(memory[j])
      {
        memory[at + k] := bytes[k];
        k := k + 1;
      }
      assert memory[..] == Load(old(memory[..]), at, bytes);
    }

    /** Initialisation: the registers are reset, then the ROM is read to address 0 and the program image to
      * address 512.  `rom` and `image` are what the two reads deliver, `None` for a failed read; `overrun`
      * reports a read longer than the memory left, which writes past the record. */
    method Init(rom: Option<seq<bv8>>, image: Option<seq<bv8>>) returns (st: IntStatus, overrun: bool)
      requires Zeroed()
      modifies this, memory
      ensures overrun <==> C8Machine.Init(rom, image).Overrun?
      ensures !overrun ==> (st == IntOk <==> C8Machine.Init(rom, image).Ready?)
      ensures st == IntOk && !overrun ==>
                Valid() && Abs() == C8Machine.Init(rom, image).m.(screen := display.cells[..])
    {
      pc, i, delay, sound, exec, x, sp, cycle, rate := PROGRAM_START, PROGRAM_START, 0, 0, Normal, 0, 0, 0, TIMER_RATE;
      ghost var m0 := Reset().(screen := display.cells[..]);
      assert Abs() == m0;
      if rom.None? {
        return IntInitFailed, false;
      }
      if |rom.value| > MEM_SIZE {
        return IntOk, true;
      }
      LoadBytes(0, rom.value);
      if image.None? {
        return IntInitFailed, false;
      }
      if PROGRAM_START + |image.value| > MEM_SIZE {
        return IntOk, true;
      }
      LoadBytes(PROGRAM_START, image.value);
      return IntOk, false;
    }

    /** Writing register `c`. */
    method SetV(c: nat, val: bv8)
      requires Valid() && c < 16
      modifies v
      ensures Valid() && Abs() == old(Abs()).(v := old(Abs()).v[c := val])
    {
      v[c] := val;
      assert v[..] == old(v[..])[c := val];
      assert memory[..] == old(memory[..]) && stack[..] == old(stack[..]) && display.cells[..] == old(display.cells[..]);
    }

    /** Writing memory byte `k`. */
    method SetMem(k: nat, val: bv8)
      requires Valid() && k < MEM_SIZE
      modifies memory
      ensures Valid() && Abs() == old(Abs()).(mem := old(Abs()).mem[k := val])
    {
      memory[k] := val;
      assert memory[..] == old(memory[..])[k := val];
      assert v[..] == old(v[..]) && stack[..] == old(stack[..]) && display.cells[..] == old(display.cells[..]);
    }

    /** 00E0: the console and then the buffer are cleared. */
    method Interpret00E0(w: bv16, clearOk: bool)
      requires Valid()
      modifies this, display.cells
      ensures Valid() && Abs() == Exec00E0(old(Abs()), w, clearOk).m
    {
      var st := display.Clear(clearOk);
      assert clearOk ==> display.cells[..] == seq(CELLS, _ => Blank);
      pc := Wrap16(pc + 2);
    }

    /** 00EE: PC is popped from the stack; `fault` is a pop from the empty stack. */
    method Interpret00EE(w: bv16) returns (fault: bool)
      requires Valid()
      modifies this
      ensures fault == Exec00EE(old(Abs()), w).Fault?
      ensures !fault ==> Valid() && Abs() == Exec00EE(old(Abs()), w).m
    {
      if sp == 0 {
        return true;
      }
      sp := sp - 1;
      pc := stack[sp];
      return false;
    }

    /** 0NNN, a machine-code call, stops the interpreter. */
    method Interpret0NNN(w: bv16)
      requires Valid()
      modifies this
      ensures Valid() && Abs() == Exec0NNN(old(Abs()), w).m
    {
      exec := Stop;
    }

    /** 1NNN: a jump to NNN. */
    method Interpret1NNN(w: bv16)
      requires Valid()
      modifies this
      ensures Valid() && Abs() == Exec1NNN(old(Abs()), w).m
    {
      pc := FieldNNN(w);
    }

    /** 2NNN: the address after the call is pushed and PC set to NNN; `fault` is a push on the full stack. */
    method Interpret2NNN(w: bv16) returns (fault: bool)
      requires Valid()
      modifies this, stack
      ensures fault == Exec2NNN(old(Abs()), w).Fault?
      ensures !fault ==> Valid() && Abs() == Exec2NNN(old(Abs()), w).m
    {
      if sp >= STACK_SIZE {
        return true;
      }
      stack[sp] := Wrap16(pc + 2);
      assert stack[..] == old(stack[..])[old(sp) := Wrap16(pc + 2)];
      sp := sp + 1;
      pc := FieldNNN(w);
      return false;
    }

    /** BNNN: a jump to NNN + V0. */
    method InterpretBNNN(w: bv16)
      requires Valid()
      modifies this
      ensures Valid() && Abs() == ExecBNNN(old(Abs()), w).m
    {
      pc := FieldNNN(w) + v[0] as int;
    }

    /** 3XNN: the next instruction is skipped when VX equals NN. */
    method Interpret3XNN(w: bv16)
      requires Valid()
      modifies this
      ensures Valid() && Abs() == Exec3XNN(old(Abs()), w).m
    {
      var vx, vy := v[FieldX(w)], v[FieldY(w)];
      if vx == FieldNN(w) {
        pc := Wrap16(pc + 4);
      } else {
        pc := Wrap16(pc + 2);
      }
    }

    /** 4XNN: the next instruction is skipped when VX differs from NN. */
    method Interpret4XNN(w: bv16)
      requires Valid()
      modifies this
      ensures Valid() && Abs() == Exec4XNN(old(Abs()), w).m
    {
      var vx, vy := v[FieldX(w)], v[FieldY(w)];
      if vx != FieldNN(w) {
        pc := Wrap16(pc + 4);
      } else {
        pc := Wrap16(pc + 2);
      }
    }

    /** 5XY0: the next instruction is skipped when VX equals VY. */
    method Interpret5XY0(w: bv16)
      requires Valid()
      modifies this
      ensures Valid() && Abs() == Exec5XY0(old(Abs()), w).m
    {
      var vx, vy := v[FieldX(w)], v[FieldY(w)];
      if vx == vy {
        pc := Wrap16(pc + 4);
      } else {
        pc := Wrap16(pc + 2);
      }
    }

    /** 9XY0: the next instruction is skipped when VX differs from VY. */
    method Interpret9XY0(w: bv16)
      requires Valid()
      modifies this
      ensures Valid() && Abs() == Exec9XY0(old(Abs()), w).m
    {
      var vx, vy := v[FieldX(w)], v[FieldY(w)];
      if vx != vy {
        pc := Wrap16(pc + 4);
      } else {
        pc := Wrap16(pc + 2);
      }
    }

    /** EX9E: the next instruction is skipped when the latched key is VX, and the key is consumed. */
    method InterpretEX9E(w: bv16)
      requires Valid()
      modifies this
      ensures Valid() && Abs() == ExecEX9E(old(Abs()), w).m
    {
      if lastKey == v[FieldX(w)] as int {
        pc, lastKey := Wrap16(pc + 4), KB_PASS;
      } else {
        pc := Wrap16(pc + 2);
      }
    }

    /** EXA1: the next instruction is skipped unless the latched key is VX, which is then consumed. */
    method InterpretEXA1(w: bv16)
      requires Valid()
      modifies this
      ensures Valid() && Abs() == ExecEXA1(old(Abs()), w).m
    {
      if lastKey != v[FieldX(w)] as int {
        pc := Wrap16(pc + 4);
      } else {
        pc, lastKey := Wrap16(pc + 2), KB_PASS;
      }
    }

    /** 6XNN: VX := NN. */
    method Interpret6XNN(w: bv16)
      requires Valid()
      modifies this, v
      ensures Valid() && Abs() == Exec6XNN(old(Abs()), w).m
    {
      SetV(FieldX(w), FieldNN(w));
      pc := Wrap16(pc + 2);
    }

    /** 7XNN: VX := VX + NN modulo 256, VF untouched. */
    method Interpret7XNN(w: bv16)
      requires Valid()
      modifies this, v
      ensures Valid() && Abs() == Exec7XNN(old(Abs()), w).m
    {
      SetV(FieldX(w), v[FieldX(w)] + FieldNN(w));
      pc := Wrap16(pc + 2);
    }

    /** 8XY0: VX := VY. */
    method Interpret8XY0(w: bv16)
      requires Valid()
      modifies this, v
      ensures Valid() && Abs() == Exec8XY0(old(Abs()), w).m
    {
      SetV(FieldX(w), v[FieldY(w)]);
      pc := Wrap16(pc + 2);
    }

    /** 8XY1: VX := VX or VY. */
    method Interpret8XY1(w: bv16)
      requires Valid()
      modifies this, v
      ensures Valid() && Abs() == Exec8XY1(old(Abs()), w).m
    {
      SetV(FieldX(w), v[FieldX(w)] | v[FieldY(w)]);
      pc := Wrap16(pc + 2);
    }

    /** 8XY2: VX := VX and VY. */
    method Interpret8XY2(w: bv16)
      requires Valid()
      modifies this, v
      ensures Valid() && Abs() == Exec8XY2(old(Abs()), w).m
    {
      SetV(FieldX(w), v[FieldX(w)] & v[FieldY(w)]);
      pc := Wrap16(pc + 2);
    }

    /** 8XY3: VX := VX xor VY. */
    method Interpret8XY3(w: bv16)
      requires Valid()
      modifies this, v
      ensures Valid() && Abs() == Exec8XY3(old(Abs()), w).m
    {
      SetV(FieldX(w), v[FieldX(w)] ^ v[FieldY(w)]);
      pc := Wrap16(pc + 2);
    }

    /** ANNN: I := NNN. */
    method InterpretANNN(w: bv16)
      requires Valid()
      modifies this
      ensures Valid() && Abs() == ExecANNN(old(Abs()), w).m
    {
      i := FieldNNN(w);
      pc := Wrap16(pc + 2);
    }

    /** CXNN: VX := the low byte of cycle / 100, and NN. */
    method InterpretCXNN(w: bv16)
      requires Valid()
      modifies this, v
      ensures Valid() && Abs() == ExecCXNN(old(Abs()), w).m
    {
      SetV(FieldX(w), ((cycle / 100) % 256) as bv8 & FieldNN(w));
      pc := Wrap16(pc + 2);
    }

    /** FX07: VX := the delay timer. */
    method InterpretFX07(w: bv16)
      requires Valid()
      modifies this, v
      ensures Valid() && Abs() == ExecFX07(old(Abs()), w).m
    {
      SetV(FieldX(w), delay);
      pc := Wrap16(pc + 2);
    }

    /** FX0A: the loop is made to wait for a key for VX. */
    method InterpretFX0A(w: bv16)
      requires Valid()
      modifies this
      ensures Valid() && Abs() == ExecFX0A(old(Abs()), w).m
    {
      x, exec := FieldX(w), AwaitsKey;
      pc := Wrap16(pc + 2);
    }

    /** FX15: the delay timer := VX. */
    method InterpretFX15(w: bv16)
      requires Valid()
      modifies this
      ensures Valid() && Abs() == ExecFX15(old(Abs()), w).m
    {
      delay := v[FieldX(w)];
      pc := Wrap16(pc + 2);
    }

    /** FX18: the sound timer := VX. */
    method InterpretFX18(w: bv16)
      requires Valid()
      modifies this
      ensures Valid() && Abs() == ExecFX18(old(Abs()), w).m
    {
      sound := v[FieldX(w)];
      pc := Wrap16(pc + 2);
    }

    /** FX1E: I := I + VX modulo 2^16. */
    method InterpretFX1E(w: bv16)
      requires Valid()
      modifies this
      ensures Valid() && Abs() == ExecFX1E(old(Abs()), w).m
    {
      i := Wrap16(i + v[FieldX(w)] as int);
      pc := Wrap16(pc + 2);
    }

    /** FX29: I := 5 VX, the address of the font glyph of digit VX. */
    method InterpretFX29(w: bv16)
      requires Valid()
      modifies this
      ensures Valid() && Abs() == ExecFX29(old(Abs()), w).m
    {
      i := v[FieldX(w)] as int * 5;
      pc := Wrap16(pc + 2);
    }

    /** FX33: the decimal digits of VX at I, I + 1 and I + 2; `fault` is a byte beyond memory. */
    method InterpretFX33(w: bv16) returns (fault: bool)
      requires Valid()
      modifies this, memory
      ensures fault == ExecFX33(old(Abs()), w).Fault?
      ensures !fault ==> Valid() && Abs() == ExecFX33(old(Abs()), w).m
    {
      if i + 2 >= MEM_SIZE {
        return true;
      }
      var d := v[FieldX(w)];
      memory[i], memory[i + 1], memory[i + 2] := d / 100, (d % 100) / 10, d % 10;
      assert memory[..] == old(memory[..])[i := d / 100][i + 1 := (d % 100) / 10][i + 2 := d % 10];
      assert v[..] == old(v[..]) && stack[..] == old(stack[..]) && display.cells[..] == old(display.cells[..]);
      pc := Wrap16(pc + 2);
      return false;
    }

    /** FX55: V0..VX are stored from I on, and I is left just past them; `fault` is a byte beyond memory. */
    method InterpretFX55(w: bv16) returns (fault: bool)
      requires Valid()
      modifies this, memory
      ensures fault == ExecFX55(old(Abs()), w).Fault?
      ensures !fault ==> Valid() && Abs() == ExecFX55(old(Abs()), w).m
    {
      var x, base := FieldX(w), i;
      var c := 0;
      while c <= x
        modifies memory
        invariant 0 <= c <= x + 1 && (c > 0 ==> base + c <= MEM_SIZE)
        invariant forall k :: 0 <= k < MEM_SIZE ==> memory[k] == if base <= k < base + c then v[k - base] else old(memory[k])
      {
        if base + c >= MEM_SIZE {
          return true;
        }
        memory[base + c] := v[c];
        c := c + 1;
      }
      assert memory[..] == StoreRegs(old(memory[..]), base, v[..], x);
      i := Wrap16(base + x + 1);
      pc := Wrap16(pc + 2);
      return false;
    }

    /** FX65: V0..VX are loaded from I on, and I is left just past them; `fault` is a byte beyond memory. */
    method InterpretFX65(w: bv16) returns (fault: bool)
      requires Valid()
      modifies this, v
      ensures fault == ExecFX65(old(Abs()), w).Fault?
      ensures !fault ==> Valid() && Abs() == ExecFX65(old(Abs()), w).m
    {
      var x, base := FieldX(w), i;
      var c := 0;
      while c <= x
        modifies v
        invariant 0 <= c <= x + 1 && (c > 0 ==> base + c <= MEM_SIZE)
        invariant forall k :: 0 <= k < 16 ==> v[k] == if k < c then memory[base + k] else old(v[k])
      {
        if base + c >= MEM_SIZE {
          return true;
        }
        v[c] := memory[base + c];
        c := c + 1;
      }
      assert v[..] == LoadRegs(old(v[..]), memory[..], base, x);
      i := Wrap16(base + x + 1);
      pc := Wrap16(pc + 2);
      return false;
    }

    /** The control-flow handlers. */
    method InterpretFlow(op: Opcode, w: bv16, clearOk: bool) returns (fault: bool)
      requires Valid() && IsFlow(op)
      modifies this, stack, display.cells
      ensures fault == ExecFlow(old(Abs()), op, w, clearOk).Fault?
      ensures !fault ==> Valid() && Abs() == ExecFlow(old(Abs()), op, w, clearOk).m
    {
      match op {
        case Op00E0 => Interpret00E0(w, clearOk); fault := false;
        case Op00EE => fault := Interpret00EE(w);
        case Op0NNN => Interpret0NNN(w); fault := false;
        case Op1NNN => Interpret1NNN(w); fault := false;
        case Op2NNN => fault := Interpret2NNN(w);
        case OpBNNN => InterpretBNNN(w); fault := false;
      }
    }

    /** The conditional-skip handlers. */
    method InterpretSkip(op: Opcode, w: bv16)
      requires Valid() && IsSkip(op)
      modifies this
      ensures Valid() && Abs() == ExecSkip(old(Abs()), op, w).m
    {
      match op {
        case Op3XNN => Interpret3XNN(w);
        case Op4XNN => Interpret4XNN(w);
        case Op5XY0 => Interpret5XY0(w);
        case Op9XY0 => Interpret9XY0(w);
        case OpEX9E => InterpretEX9E(w);
        case OpEXA1 => InterpretEXA1(w);
      }
    }

    /** The register-load handlers. */
    method InterpretLoad(op: Opcode, w: bv16)
      requires Valid() && IsLoad(op)
      modifies this, v
      ensures Valid() && Abs() == ExecLoad(old(Abs()), op, w).m
    {
      match op {
        case Op6XNN => Interpret6XNN(w);
        case Op7XNN => Interpret7XNN(w);
        case Op8XY0 => Interpret8XY0(w);
        case Op8XY1 => Interpret8XY1(w);
        case Op8XY2 => Interpret8XY2(w);
        case Op8XY3 => Interpret8XY3(w);
        case OpANNN => InterpretANNN(w);
        case OpCXNN => InterpretCXNN(w);
      }
    }

    /** The timer, key-wait and I-register handlers. */
    method InterpretMisc(op: Opcode, w: bv16)
      requires Valid() && IsMisc(op)
      modifies this, v
      ensures Valid() && Abs() == ExecMisc(old(Abs()), op, w).m
    {
      match op {
        case OpFX07 => InterpretFX07(w);
        case OpFX0A => InterpretFX0A(w);
        case OpFX15 => InterpretFX15(w);
        case OpFX18 => InterpretFX18(w);
        case OpFX1E => InterpretFX1E(w);
        case OpFX29 => InterpretFX29(w);
      }
    }

    /** The memory-block handlers. */
    method InterpretMem(op: Opcode, w: bv16) returns (fault: bool)
      requires Valid() && IsMem(op)
      modifies this, memory, v
      ensures fault == ExecMem(old(Abs()), op, w).Fault?
      ensures !fault ==> Valid() && Abs() == ExecMem(old(Abs()), op, w).m
    {
      match op {
        case OpFX33 => fault := InterpretFX33(w);
        case OpFX55 => fault := InterpretFX55(w);
        case OpFX65 => fault := InterpretFX65(w);
      }
    }

    /** 8XY4 to 8XY7 and 8XYE: VF is written first, then VX. */
    method InterpretArith(op: Opcode, w: bv16)
      requires Valid() && IsArith(op)
      modifies this, v
      ensures Valid() && Abs() == ExecArith(old(Abs()), op, w).m
    {
      var x, y := FieldX(w), FieldY(w);
      SetV(15, AluFlag(op, v[x], v[y]));
      SetV(x, AluResult(op, v[x], v[y]));
      pc := Wrap16(pc + 2);
    }

    /** One pass of the inner pixel loop of DXYN: bit b of the sprite row, when set, drawn by exclusive or
      * at column vx + 7 - b of screen row y; `dirty` is whether that cleared a filled pixel. */
    method DrawPixel(vx: nat, y: nat, row: bv8, b: nat) returns (dirty: bool)
      requires display.Valid() && display.attached && b < 8
      modifies display.cells
      ensures var d := C8Sprite.DrawBit(old(display.cells[..]), row, vx, y, b);
              display.cells[..] == d.0 && dirty == (d.1 == PxDirty)
    {
      ShiftedBit(row, b);
      if (row >> b) & 1 == 1 {
        var st := display.PxXor(vx + 7 - b, y, Filled, true);
        dirty := st == PxDirty;
      } else {
        dirty := false;
      }
    }

    /** The two nested pixel loops of DXYN: the N rows of the sprite at I drawn at (vx, vy), each set bit b of
      * a row by exclusive or in column vx + 7 - b; `fault` is a row read beyond memory and `hit` whether any
      * pixel was cleared. */
    method DrawSprite(vx: nat, vy: nat, n: nat) returns (fault: bool, hit: bool)
      requires display.Valid() && display.attached && memory.Length == MEM_SIZE && display.cells as object != memory as object && 0 <= i
      modifies display.cells
      ensures var d := C8Sprite.Draw(old(display.cells[..]), memory[..], i, vx, vy, n);
              fault == d.None? && (!fault ==> display.cells[..] == d.value.0 && hit == d.value.1)
    {
      ghost var d := C8Sprite.DrawFrom(display.cells[..], memory[..], i, vx, vy, n, 0, 0, false);
      hit := false;
      var r := 0;
      while r < n
        invariant 0 <= r <= n
        invariant d == C8Sprite.DrawFrom(display.cells[..], memory[..], i, vx, vy, n, r, 0, hit)
      {
        if i + r >= MEM_SIZE {
          return true, hit;
        }
        var b := 0;
        while b < 8
          invariant 0 <= b <= 8
          invariant d == C8Sprite.DrawFrom(display.cells[..], memory[..], i, vx, vy, n, r, b, hit)
        {
          var dirty := DrawPixel(vx, vy + r, memory[i + r], b);
          hit := hit || dirty;
          b := b + 1;
        }
        r := r + 1;
      }
      return false, hit;
    }

    /** DXYN: VF is cleared, the sprite drawn at the coordinates VX and VY then hold, and VF set when any
      * pixel was cleared.  `fault` is a row read beyond memory. */
    method InterpretDXYN(w: bv16) returns (fault: bool)
      requires Valid() && display.attached
      modifies this, v, display.cells
      ensures fault == ExecDraw(old(Abs()), w).Fault?
      ensures !fault ==> Valid() && Abs() == ExecDraw(old(Abs()), w).m
    {
      ghost var m0 := Abs();
      ghost var v1 := m0.v[15 := 0];
      v[15] := 0;
      assert v[..] == v1;
      var vx, vy := v[FieldX(w)] as int, v[FieldY(w)] as int;
      assert vx == v1[FieldX(w)] as int && vy == v1[FieldY(w)] as int;
      ghost var d := C8Sprite.Draw(m0.screen, m0.mem, m0.i, vx, vy, FieldN(w));
      ExecDrawUnfold(m0, w);
      var hit;
      fault, hit := DrawSprite(vx, vy, FieldN(w));
      assert fault == d.None?;
      if fault {
        return;
      }
      assert display.cells[..] == d.value.0 && hit == d.value.1;
      v[15] := if hit then 1 else 0;
      pc := Wrap16(pc + 2);
      assert v[..] == v1[15 := if hit then 1 else 0];
      assert memory[..] == m0.mem && stack[..] == m0.stack;
    }

    /** The interpreter case chosen for decoded instruction `op` with word `w`; `fault` is an access the C
      * code leaves undefined. */
    method Execute(op: Opcode, w: bv16, clearOk: bool) returns (fault: bool)
      requires Valid() && display.attached
      modifies this, memory, stack, v, display.cells
      ensures fault == Exec(old(Abs()), op, w, clearOk).Fault?
      ensures !fault ==> Valid() && Abs() == Exec(old(Abs()), op, w, clearOk).m
    {
      if IsFlow(op) {
        fault := InterpretFlow(op, w, clearOk);
      } else if IsSkip(op) {
        InterpretSkip(op, w);
        fault := false;
      } else if IsLoad(op) {
        InterpretLoad(op, w);
        fault := false;
      } else if IsArith(op) {
        InterpretArith(op, w);
        fault := false;
      } else if op.OpDXYN? {
        fault := InterpretDXYN(w);
      } else if IsMisc(op) {
        InterpretMisc(op, w);
        fault := false;
      } else {
        fault := InterpretMem(op, w);
      }
    }

    /** The word at PC fetched, matched against the instruction table and executed; a word no entry matches
      * stops the interpreter. */
    method Interpret(clearOk: bool) returns (r: LoopStatus)
      requires Valid() && display.attached
      modifies this, memory, stack, v, display.cells
      ensures Reflects(r, Step(old(Abs()), clearOk), Abs())
      ensures r == Continues ==> Valid()
    {
      if pc + 1 >= MEM_SIZE {
        return Undefined;
      }
      var w := Word(memory[pc], memory[pc + 1]);
      var op := Dispatch(w);
      if op.None? {
        exec := Stop;
        return Continues;
      }
      var fault := Execute(op.value, w, clearOk);
      r := if fault then Undefined else Continues;
    }

    /** The end of an iteration: a waiting interpreter is handed the latched key, if any, and otherwise the
      * next instruction executes. */
    method DeliverOrExecute(clearOk: bool) returns (r: LoopStatus)
      requires Valid() && display.attached
      modifies this, memory, stack, v, display.cells
      ensures Reflects(r, Advance(old(Abs()), clearOk), Abs())
      ensures r == Continues ==> Valid()
    {
      if exec == AwaitsKey {
        if lastKey != KB_PASS {
          SetV(x, lastKey as bv8);
          exec := Normal;
        }
        return Continues;
      }
      r := Interpret(clearOk);
    }

    /** A beep while the sound timer runs, and both timers ticked down on every `rate`-th cycle. */
    method SoundAndTimers()
      requires Valid()
      modifies this
      ensures Valid() && Abs() == Tally(old(Abs()))
    {
      if sound != 0 {
        beeps := beeps + 1;
      }
      if cycle % rate == 0 {
        sound, delay := Tick(sound), Tick(delay);
      }
    }

    /** The rest of an iteration once the key has been taken: a stopped interpreter exits, the sound and the
      * timers run, then either the awaited key is delivered or the next instruction executes. */
    method Proceed(clearOk: bool) returns (r: LoopStatus)
      requires Valid() && display.attached
      modifies this, memory, stack, v, display.cells
      ensures Reflects(r, Resume(old(Abs()), clearOk), Abs())
      ensures r == Continues ==> Valid()
    {
      if exec == Stop {
        return Returns(IntExecFailed);
      }
      SoundAndTimers();
      r := DeliverOrExecute(clearOk);
    }

    /** One iteration of the interpreter loop, given the terminal key code read in it and the outcome of a
      * console clear it may request: the cycle counter advances, Escape exits, and a keypad key is latched. */
    method Iteration(key: int, clearOk: bool) returns (r: LoopStatus)
      requires Valid() && display.attached
      modifies this, memory, stack, v, display.cells
      ensures Reflects(r, Cycle(old(Abs()), key, clearOk), Abs())
      ensures r == Continues ==> Valid()
    {
      cycle := (cycle + 1) % UINTN_RANGE;
      var e := InputNext(key);
      if e == KB_ESC {
        return Returns(IntOk);
      } else if e == KB_ERROR {
        return Returns(IntExecFailed);
      } else if e != KB_PASS {
        lastKey := e;
      }
      r := Proceed(clearOk);
    }

    /** The interpreter loop over a finite sequence of (key, clear outcome) inputs, one per iteration;
      * Continues when the inputs run out first. */
    method Loop(inputs: seq<(int, bool)>) returns (r: LoopStatus)
      requires Valid() && display.attached
      modifies this, memory, stack, v, display.cells
      ensures Reflects(r, Run(old(Abs()), inputs), Abs())
    {
      var k := 0;
      while k < |inputs|
        invariant 0 <= k <= |inputs| && Valid() && display.attached
        invariant Run(old(Abs()), inputs) == Run(Abs(), inputs[k..])
      {
        ghost var before := Abs();
        assert inputs[k..][0] == inputs[k] && inputs[k..][1..] == inputs[k + 1..];
        r := Iteration(inputs[k].0, inputs[k].1);
        if r != Continues {
          return;
        }
        k := k + 1;
      }
      return Continues;
    }
  }
}
