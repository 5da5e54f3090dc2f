/** What the CHIP-8 handlers and the interpreter loop promise, stated over the machine model. */
module C8MachineProps {
  import opened C8Opcodes
  import opened C8Display
  import opened C8Input
  import opened C8Machine
  import C8Sprite

  /** The skip opcodes and the condition under which each skips the next instruction. */
  predicate IsSkip(op: Opcode)
  {
    op.Op3XNN? || op.Op4XNN? || op.Op5XY0? || op.Op9XY0? || op.OpEX9E? || op.OpEXA1?
  }

  predicate SkipCondition(m: Machine, op: Opcode, w: bv16)
    requires Wf(m) && IsSkip(op)
  {
    var vx, vy := m.v[FieldX(w)], m.v[FieldY(w)];
    match op
    case Op3XNN => vx == FieldNN(w)
    case Op4XNN => !(vx == FieldNN(w))
    case Op5XY0 => vx == vy
    case Op9XY0 => !(vx == vy)
    case OpEX9E => m.lastKey == vx as int
    case OpEXA1 => !(m.lastKey == vx as int)
  }

  /** Every field but PC and the latched key is the same. */
  predicate SameButPcAndKey(m: Machine, m1: Machine)
  {
    m1.mem == m.mem && m1.stack == m.stack && m1.v == m.v && m1.i == m.i && m1.delay == m.delay
    && m1.sound == m.sound && m1.exec == m.exec && m1.x == m.x && m1.sp == m.sp && m1.cycle == m.cycle
    && m1.rate == m.rate && m1.screen == m.screen && m1.beeps == m.beeps
  }

  /** A skip opcode moves PC on by four exactly when its condition holds and by two otherwise, and changes
    * nothing else but the latched key, which a matching key test consumes. */
  lemma SkipRule(m: Machine, op: Opcode, w: bv16)
    requires Wf(m) && IsSkip(op)
    ensures var m1 := ExecSkip(m, op, w).m;
            m1.pc == (if SkipCondition(m, op, w) then Wrap16(m.pc + 4) else Wrap16(m.pc + 2))
            && SameButPcAndKey(m, m1) && (m1.lastKey == m.lastKey || m1.lastKey == KB_PASS)
    ensures ExecSkip(m, op, w).Ok?
  {
  }

  /** The opcodes that neither jump, call, return nor skip. */
  predicate IsStraight(op: Opcode)
  {
    !(op.Op00EE? || op.Op0NNN? || op.Op1NNN? || op.Op2NNN? || op.OpBNNN? || IsSkip(op))
  }

  /** Whether `o` completes with PC one instruction on from `m`'s and the stack as in `m`. */
  predicate Advances(m: Machine, o: Outcome)
  {
    o.Ok? ==> o.m.pc == Wrap16(m.pc + 2) && o.m.stack == m.stack && o.m.sp == m.sp
  }

  lemma LoadAdvances(m: Machine, op: Opcode, w: bv16)
    requires Wf(m)
    requires op.Op6XNN? || op.Op7XNN? || op.Op8XY0? || op.Op8XY1? || op.Op8XY2? || op.Op8XY3? || op.OpANNN? || op.OpCXNN?
    ensures Advances(m, ExecLoad(m, op, w))
  {
  }

  lemma MiscAdvances(m: Machine, op: Opcode, w: bv16)
    requires Wf(m) && (op.OpFX07? || op.OpFX0A? || op.OpFX15? || op.OpFX18? || op.OpFX1E? || op.OpFX29?)
    ensures Advances(m, ExecMisc(m, op, w))
  {
  }

  lemma MemAdvances(m: Machine, op: Opcode, w: bv16)
    requires Wf(m) && (op.OpFX33? || op.OpFX55? || op.OpFX65?)
    ensures Advances(m, ExecMem(m, op, w))
  {
  }

  lemma ArithAdvances(m: Machine, op: Opcode, w: bv16)
    requires Wf(m) && IsArith(op)
    ensures Advances(m, ExecArith(m, op, w))
  {
  }

  lemma DrawAdvances(m: Machine, w: bv16)
    requires Wf(m)
    ensures Advances(m, ExecDraw(m, w))
  {
  }

  lemma ClearAdvances(m: Machine, w: bv16, clearOk: bool)
    requires Wf(m)
    ensures Advances(m, ExecFlow(m, Op00E0, w, clearOk))
  {
  }

  /** Every other opcode that completes moves PC on by exactly one instruction and leaves the stack alone. */
  lemma StraightAdvances(m: Machine, op: Opcode, w: bv16, clearOk: bool)
    requires Wf(m) && IsStraight(op)
    ensures Advances(m, Exec(m, op, w, clearOk))
  {
    if op.Op00E0? {
      ClearAdvances(m, w, clearOk);
    } else if op.Op6XNN? || op.Op7XNN? || op.Op8XY0? || op.Op8XY1? || op.Op8XY2? || op.Op8XY3? || op.OpANNN? || op.OpCXNN? {
      LoadAdvances(m, op, w);
    } else if IsArith(op) {
      ArithAdvances(m, op, w);
    } else if op.OpDXYN? {
      DrawAdvances(m, w);
    } else if op.OpFX07? || op.OpFX0A? || op.OpFX15? || op.OpFX18? || op.OpFX1E? || op.OpFX29? {
      MiscAdvances(m, op, w);
    } else {
      MemAdvances(m, op, w);
    }
  }

  /** A call followed, in the callee, by a return resumes at the instruction after the call with the stack
    * depth restored; the call fails only on a full stack, the return only on an empty one. */
  lemma CallThenReturn(m: Machine, call: bv16, ret: bv16, clearOk: bool)
    requires Wf(m)
    ensures ExecFlow(m, Op2NNN, call, clearOk).Ok? <==> m.sp < STACK_SIZE
    ensures m.sp < STACK_SIZE ==>
              var m1 := ExecFlow(m, Op2NNN, call, clearOk).m;
              m1.pc == FieldNNN(call) && m1.sp == m.sp + 1
              && ExecFlow(m1, Op00EE, ret, clearOk).Ok?
              && ExecFlow(m1, Op00EE, ret, clearOk).m.pc == Wrap16(m.pc + 2)
              && ExecFlow(m1, Op00EE, ret, clearOk).m.sp == m.sp
              && ExecFlow(m1, Op00EE, ret, clearOk).m.stack[..m.sp] == m.stack[..m.sp]
    ensures ExecFlow(m, Op00EE, ret, clearOk).Ok? <==> m.sp > 0
  {
  }

  /** The registers other than VX and VF. */
  predicate OthersKept(v0: seq<bv8>, v1: seq<bv8>, x: nat)
    requires |v0| == 16 && |v1| == 16
  {
    forall c :: 0 <= c < 15 && c != x ==> v1[c] == v0[c]
  }

  /** With X and Y other than F, an arithmetic opcode leaves its flag in VF and its result, computed from the
    * old VX and VY, in VX, and changes no other register. */
  lemma ArithRegisters(m: Machine, op: Opcode, w: bv16)
    requires Wf(m) && IsArith(op) && FieldX(w) != 15 && FieldY(w) != 15
    ensures var x, y, m1 := FieldX(w), FieldY(w), ExecArith(m, op, w).m;
            m1.v[x] == AluResult(op, m.v[x], m.v[y]) && m1.v[15] == AluFlag(op, m.v[x], m.v[y])
            && OthersKept(m.v, m1.v, x) && m1.pc == Wrap16(m.pc + 2)
  {
  }

  /** 8XY4 keeps the carry in VF: VF and VX together hold the full nine-bit sum. */
  lemma AddCarry(a: bv8, b: bv8)
    ensures AluFlag(Op8XY4, a, b) as bv16 * 256 + AluResult(Op8XY4, a, b) as bv16 == a as bv16 + b as bv16
  {
  }

  /** 8XY5 stores VX - VY modulo 256, so adding VY back gives VX, with VF = 1 exactly when no borrow was
    * needed (VX >= VY). */
  lemma SubBorrow(a: bv8, b: bv8)
    ensures AluResult(Op8XY5, a, b) + b == a
    ensures AluFlag(Op8XY5, a, b) == 1 <==> a >= b
    ensures AluFlag(Op8XY5, a, b) == 0 <==> a < b
  {
  }

  /** 8XY7 stores VY - VX modulo 256, with VF = 1 exactly when VY >= VX. */
  lemma ReverseSubBorrow(a: bv8, b: bv8)
    ensures AluResult(Op8XY7, a, b) + a == b
    ensures AluFlag(Op8XY7, a, b) == 1 <==> b >= a
    ensures AluFlag(Op8XY7, a, b) == 0 <==> b < a
  {
  }

  /** 8XY6 halves VX itself (VY is not used) and keeps the bit shifted out in VF. */
  lemma ShiftRight(a: bv8, b: bv8)
    ensures AluResult(Op8XY6, a, b) as bv16 * 2 + AluFlag(Op8XY6, a, b) as bv16 == a as bv16
  {
  }

  /** 8XYE stores VY doubled modulo 256 in VX and keeps the bit shifted out of VY in VF. */
  lemma ShiftLeft(a: bv8, b: bv8)
    ensures AluResult(Op8XYE, a, b) as bv16 + AluFlag(Op8XYE, a, b) as bv16 * 256 == b as bv16 * 2
  {
  }

  /** The hundreds, tens and units digits of a byte, and their weighted sum is the byte. */
  lemma ByteDigits(d: bv8)
    ensures (d / 100) as bv16 * 100 + ((d % 100) / 10) as bv16 * 10 + (d % 10) as bv16 == d as bv16
    ensures d / 100 <= 2 && (d % 100) / 10 <= 9 && d % 10 <= 9
  {
  }

  /** FX33 writes the three decimal digits of VX, hundreds first, and no other byte. */
  lemma DecimalDigits(m: Machine, w: bv16)
    requires Wf(m) && m.i + 2 < MEM_SIZE
    ensures var i, d, mem := m.i, m.v[FieldX(w)], ExecMem(m, OpFX33, w).m.mem;
            mem[i] == d / 100 && mem[i + 1] == (d % 100) / 10 && mem[i + 2] == d % 10
            && (forall k :: 0 <= k < MEM_SIZE && !(i <= k <= i + 2) ==> mem[k] == m.mem[k])
    ensures ExecMem(m, OpFX33, w).Ok?
  {
  }

  /** Loading back what was just stored gives V0..Vx again; storing what was just loaded leaves memory as it
    * was. */
  lemma StoreLoadRoundTrip(mem: seq<bv8>, v: seq<bv8>, u: seq<bv8>, i: nat, x: nat)
    requires |v| == 16 && |u| == 16 && x < 16 && i + x < |mem|
    ensures LoadRegs(u, StoreRegs(mem, i, v, x), i, x)[..x + 1] == v[..x + 1]
    ensures StoreRegs(mem, i, LoadRegs(v, mem, i, x), x) == mem
  {
    var l := LoadRegs(u, StoreRegs(mem, i, v, x), i, x);
    assert forall c :: 0 <= c <= x ==> l[c] == v[c];
  }

  /** FX55 then FX65 over the same block, with I set back in between, gives V0..VX their values again; both
    * leave I just past the block. */
  lemma BlockStoreLoad(m: Machine, w: bv16)
    requires Wf(m) && m.i + FieldX(w) < MEM_SIZE
    ensures var m1 := ExecMem(m, OpFX55, w).m;
            m1.i == Wrap16(m.i + FieldX(w) + 1) && m1.v == m.v
            && ExecMem(m1.(i := m.i), OpFX65, w).Ok?
            && ExecMem(m1.(i := m.i), OpFX65, w).m.v == m.v
            && ExecMem(m1.(i := m.i), OpFX65, w).m.mem == m1.mem
    ensures ExecMem(m, OpFX55, w).Ok?
  {
    var x, i := FieldX(w), m.i;
    var m1 := ExecMem(m, OpFX55, w).m;
    StoreLoadRoundTrip(m.mem, m.v, m.v, i, x);
    var v2 := LoadRegs(m.v, m1.mem, i, x);
    assert v2 == m.v by {
      assert forall c :: 0 <= c <= x ==> v2[c] == v2[..x + 1][c];
    }
  }

  /** The timers count down together on every `rate`-th cycle and never below zero; nothing else changes. */
  lemma TimersCountDown(m: Machine)
    requires m.rate > 0
    ensures var m1 := Timers(m);
            (m.cycle % m.rate == 0 ==> Tick(m.delay) == m1.delay && Tick(m.sound) == m1.sound)
            && (m.cycle % m.rate != 0 ==> m1 == m)
            && m1.delay <= m.delay && m1.sound <= m.sound
  {
  }

  /** An iteration of a waiting interpreter: with no key latched it only runs the timers, and with a keypad
    * key it stores the key in the register FX0A named and resumes at the same PC. */
  lemma KeyWait(m: Machine, key: int, clearOk: bool)
    requires Wf(m) && m.exec == AwaitsKey
    ensures InputNext(key) == KB_PASS && m.lastKey == KB_PASS ==>
              Cycle(m, key, clearOk).Running? && Cycle(m, key, clearOk).m.exec == AwaitsKey
              && Cycle(m, key, clearOk).m.pc == m.pc && Cycle(m, key, clearOk).m.v == m.v
    ensures 0 <= InputNext(key) < 16 ==>
              Cycle(m, key, clearOk).Running? && Cycle(m, key, clearOk).m.exec == Normal
              && Cycle(m, key, clearOk).m.pc == m.pc
              && Cycle(m, key, clearOk).m.v == m.v[m.x := InputNext(key) as bv8]
  {
  }

  /** Executing FX0A makes the loop wait: while no key has been latched each iteration only runs the timers,
    * and the first iteration with a keypad key stores it in VX and resumes after FX0A. */
  lemma AwaitKey(m: Machine, w: bv16, key: int, clearOk: bool)
    requires Wf(m) && m.exec == Normal
    ensures var m1 := Exec(m, OpFX0A, w, clearOk).m;
            m1.exec == AwaitsKey && m1.pc == Wrap16(m.pc + 2)
            && (InputNext(key) == KB_PASS && m1.lastKey == KB_PASS ==>
                  Cycle(m1, key, clearOk).Running? && Cycle(m1, key, clearOk).m.exec == AwaitsKey
                  && Cycle(m1, key, clearOk).m.pc == m1.pc && Cycle(m1, key, clearOk).m.v == m1.v)
            && (0 <= InputNext(key) < 16 ==>
                  Cycle(m1, key, clearOk).Running? && Cycle(m1, key, clearOk).m.exec == Normal
                  && Cycle(m1, key, clearOk).m.pc == m1.pc
                  && Cycle(m1, key, clearOk).m.v == m.v[FieldX(w) := InputNext(key) as bv8])
    ensures Exec(m, OpFX0A, w, clearOk).Ok?
  {
    var o := Exec(m, OpFX0A, w, clearOk);
    assert o == ExecMisc(m, OpFX0A, w);
    assert o.Ok? && o.m == m.(x := FieldX(w), exec := AwaitsKey, pc := Wrap16(m.pc + 2));
    KeyWait(o.m, key, clearOk);
  }

  /** A word no table row covers stops the interpreter, and the next iteration that is not ended by Escape
    * exits with the execution-failed status. */
  lemma UnknownOpcodeHalts(m: Machine, key: int, clearOk: bool)
    requires Wf(m) && m.exec == Normal && m.pc + 1 < MEM_SIZE
    requires Dispatch(Word(m.mem[m.pc], m.mem[m.pc + 1])).None?
    ensures Step(m, clearOk) == Running(m.(exec := Stop))
    ensures InputNext(key) != KB_ESC ==>
              Cycle(m.(exec := Stop), key, clearOk).Exited?
              && Cycle(m.(exec := Stop), key, clearOk).status == IntExecFailed
  {
  }

  /** DXYN leaves VF = 1 exactly when a pixel the sprite covers was filled, and flips exactly the covered
    * pixels; it fails only when the sprite's rows run past the end of memory. */
  lemma DrawCollision(m: Machine, w: bv16)
    requires Wf(m) && FieldX(w) != 15 && FieldY(w) != 15
    ensures var n := FieldN(w);
            ExecDraw(m, w).Ok? <==> n == 0 || m.i + n <= MEM_SIZE
    ensures var n, vx, vy := FieldN(w), m.v[FieldX(w)] as int, m.v[FieldY(w)] as int;
            m.i + n <= MEM_SIZE ==>
              var m1 := ExecDraw(m, w).m;
              (m1.v[15] == 1 <==> C8Sprite.Collides(m.screen, m.mem, m.i, vx, vy, n))
              && (m1.v[15] == 0 <==> !C8Sprite.Collides(m.screen, m.mem, m.i, vx, vy, n))
              && m1.v[..15] == m.v[..15]
              && forall px, py :: C8Sprite.OnScreen(px, py) ==>
                   m1.screen[Index(px, py)] ==
                   if C8Sprite.SpriteCovers(m.mem, m.i, vx, vy, n, px, py)
                   then XorPx(m.screen[Index(px, py)], Filled) else m.screen[Index(px, py)]
  {
    var n, vx, vy := FieldN(w), m.v[FieldX(w)] as int, m.v[FieldY(w)] as int;
    if m.i + n <= MEM_SIZE {
      C8Sprite.DrawSpec(m.screen, m.mem, m.i, vx, vy, n);
    }
  }

  /** Running over two input sequences one after the other is running over their concatenation. */
  lemma {:induction false} RunAppend(m: Machine, a: seq<(int, bool)>, b: seq<(int, bool)>)
    requires Wf(m)
    ensures Run(m, a + b) == match Run(m, a)
                             case Running(m1) => Run(m1, b)
                             case Exited(st, m1) => Exited(st, m1)
                             case Crashed => Crashed
    decreases |a|
  {
    if |a| == 0 {
      assert a + b == b;
    } else {
      assert (a + b)[0] == a[0];
      assert (a + b)[1..] == a[1..] + b;
      match Cycle(m, a[0].0, a[0].1)
      case Running(m1) => RunAppend(m1, a[1..], b);
      case Exited(st, m1) =>
      case Crashed =>
    }
  }
}
