/** The ordered CHIP-8 opcode table and its subset-match dispatch.  A row's mask covers a word
  * `w` when every bit set in `w` is set in the mask, that is `w & mask == w`. */
module C8Opcodes {
  /** The opcode forms, one per table row, named as in the table and listed in its order. */
  datatype Opcode =
    | Op00E0 | Op00EE | Op0NNN | Op1NNN | Op2NNN | Op3XNN | Op4XNN | Op5XY0 | Op6XNN
    | Op7XNN | Op8XY0 | Op8XY1 | Op8XY2 | Op8XY3 | Op8XY4 | Op8XY5 | Op8XY6 | Op8XY7
    | Op8XYE | Op9XY0 | OpANNN | OpBNNN | OpCXNN | OpDXYN | OpEX9E | OpEXA1 | OpFX07
    | OpFX0A | OpFX15 | OpFX18 | OpFX1E | OpFX29 | OpFX33 | OpFX55 | OpFX65

  datatype Option<T> = None | Some(value: T)

  /** The mask of each form, as the table lists it. */
  function MaskOf(op: Opcode): bv16
  {
    match op
    case Op00E0 => 0x00E0
    case Op00EE => 0x00EE
    case Op0NNN => 0x0FFF
    case Op1NNN => 0x1FFF
    case Op2NNN => 0x2FFF
    case Op3XNN => 0x3FFF
    case Op4XNN => 0x4FFF
    case Op5XY0 => 0x5FF0
    case Op6XNN => 0x6FFF
    case Op7XNN => 0x7FFF
    case Op8XY0 => 0x8FF0
    case Op8XY1 => 0x8FF1
    case Op8XY2 => 0x8FF2
    case Op8XY3 => 0x8FF3
    case Op8XY4 => 0x8FF4
    case Op8XY5 => 0x8FF5
    case Op8XY6 => 0x8FF6
    case Op8XY7 => 0x8FF7
    case Op8XYE => 0x8FFE
    case Op9XY0 => 0x9FF0
    case OpANNN => 0xAFFF
    case OpBNNN => 0xBFFF
    case OpCXNN => 0xCFFF
    case OpDXYN => 0xDFFF
    case OpEX9E => 0xEF9E
    case OpEXA1 => 0xEFA1
    case OpFX07 => 0xFF07
    case OpFX0A => 0xFF0A
    case OpFX15 => 0xFF15
    case OpFX18 => 0xFF18
    case OpFX1E => 0xFF1E
    case OpFX29 => 0xFF29
    case OpFX33 => 0xFF33
    case OpFX55 => 0xFF55
    case OpFX65 => 0xFF65
  }

  /** The big-endian opcode word stored at two consecutive bytes. */
  function Word(hi: bv8, lo: bv8): (w: bv16)
    ensures (w >> 8) as bv8 == hi && (w & 0xFF) as bv8 == lo
  {
    (hi as bv16 << 8) | lo as bv16
  }

  /** The interpreter's dispatch: one test per table row, in table order, the first covering mask
    * winning; None stops execution. */
  function Dispatch(w: bv16): Option<Opcode>
  {
    if w & 0x00E0 == w then Some(Op00E0)
    else if w & 0x00EE == w then Some(Op00EE)
    else if w & 0x0FFF == w then Some(Op0NNN)
    else if w & 0x1FFF == w then Some(Op1NNN)
    else if w & 0x2FFF == w then Some(Op2NNN)
    else if w & 0x3FFF == w then Some(Op3XNN)
    else if w & 0x4FFF == w then Some(Op4XNN)
    else if w & 0x5FF0 == w then Some(Op5XY0)
    else if w & 0x6FFF == w then Some(Op6XNN)
    else if w & 0x7FFF == w then Some(Op7XNN)
    else if w & 0x8FF0 == w then Some(Op8XY0)
    else if w & 0x8FF1 == w then Some(Op8XY1)
    else if w & 0x8FF2 == w then Some(Op8XY2)
    else if w & 0x8FF3 == w then Some(Op8XY3)
    else if w & 0x8FF4 == w then Some(Op8XY4)
    else if w & 0x8FF5 == w then Some(Op8XY5)
    else if w & 0x8FF6 == w then Some(Op8XY6)
    else if w & 0x8FF7 == w then Some(Op8XY7)
    else if w & 0x8FFE == w then Some(Op8XYE)
    else if w & 0x9FF0 == w then Some(Op9XY0)
    else if w & 0xAFFF == w then Some(OpANNN)
    else if w & 0xBFFF == w then Some(OpBNNN)
    else if w & 0xCFFF == w then Some(OpCXNN)
    else if w & 0xDFFF == w then Some(OpDXYN)
    else if w & 0xEF9E == w then Some(OpEX9E)
    else if w & 0xEFA1 == w then Some(OpEXA1)
    else if w & 0xFF07 == w then Some(OpFX07)
    else if w & 0xFF0A == w then Some(OpFX0A)
    else if w & 0xFF15 == w then Some(OpFX15)
    else if w & 0xFF18 == w then Some(OpFX18)
    else if w & 0xFF1E == w then Some(OpFX1E)
    else if w & 0xFF29 == w then Some(OpFX29)
    else if w & 0xFF33 == w then Some(OpFX33)
    else if w & 0xFF55 == w then Some(OpFX55)
    else if w & 0xFF65 == w then Some(OpFX65)
    else None
  }

  /** The operand bits of each form (X, Y, N, NN, NNN); the other mask bits are fixed. */
  function Operands(op: Opcode): bv16
  {
    match op
    case Op00E0 | Op00EE => 0
    case Op5XY0 | Op8XY0 | Op8XY1 | Op8XY2 | Op8XY3 | Op8XY4 | Op8XY5 | Op8XY6 | Op8XY7 | Op8XYE | Op9XY0 => 0x0FF0
    case OpEX9E | OpEXA1 | OpFX07 | OpFX0A | OpFX15 | OpFX18 | OpFX1E | OpFX29 | OpFX33 | OpFX55 | OpFX65 => 0x0F00
    case _ => 0x0FFF
  }

  /** `w` is an instance of form `op`: its fixed bits are those of the form, its operands arbitrary. */
  predicate IsInstance(op: Opcode, w: bv16)
  {
    w & !Operands(op) == MaskOf(op) & !Operands(op)
  }

  /** Every canonical instance of each form reaches that form's handler. */
  lemma Canonical00E0(w: bv16)
    requires IsInstance(Op00E0, w)
    ensures Dispatch(w) == Some(Op00E0)
  {
  }

  lemma Canonical00EE(w: bv16)
    requires IsInstance(Op00EE, w)
    ensures Dispatch(w) == Some(Op00EE)
  {
  }

  lemma Canonical0NNN(w: bv16)
    requires IsInstance(Op0NNN, w)
    requires w & 0x00E0 != w && w & 0x00EE != w
    ensures Dispatch(w) == Some(Op0NNN)
  {
  }

  lemma Canonical1NNN(w: bv16)
    requires IsInstance(Op1NNN, w)
    ensures Dispatch(w) == Some(Op1NNN)
  {
  }

  lemma Canonical2NNN(w: bv16)
    requires IsInstance(Op2NNN, w)
    ensures Dispatch(w) == Some(Op2NNN)
  {
  }

  lemma Canonical3XNN(w: bv16)
    requires IsInstance(Op3XNN, w)
    ensures Dispatch(w) == Some(Op3XNN)
  {
  }

  lemma Canonical4XNN(w: bv16)
    requires IsInstance(Op4XNN, w)
    ensures Dispatch(w) == Some(Op4XNN)
  {
  }

  lemma Canonical5XY0(w: bv16)
    requires IsInstance(Op5XY0, w)
    ensures Dispatch(w) == Some(Op5XY0)
  {
  }

  lemma Canonical6XNN(w: bv16)
    requires IsInstance(Op6XNN, w)
    ensures Dispatch(w) == Some(Op6XNN)
  {
  }

  lemma Canonical7XNN(w: bv16)
    requires IsInstance(Op7XNN, w)
    ensures Dispatch(w) == Some(Op7XNN)
  {
  }

  lemma Canonical8XY0(w: bv16)
    requires IsInstance(Op8XY0, w)
    ensures Dispatch(w) == Some(Op8XY0)
  {
  }

  lemma Canonical8XY1(w: bv16)
    requires IsInstance(Op8XY1, w)
    ensures Dispatch(w) == Some(Op8XY1)
  {
  }

  lemma Canonical8XY2(w: bv16)
    requires IsInstance(Op8XY2, w)
    ensures Dispatch(w) == Some(Op8XY2)
  {
  }

  lemma Canonical8XY3(w: bv16)
    requires IsInstance(Op8XY3, w)
    ensures Dispatch(w) == Some(Op8XY3)
  {
  }

  lemma Canonical8XY4(w: bv16)
    requires IsInstance(Op8XY4, w)
    ensures Dispatch(w) == Some(Op8XY4)
  {
  }

  lemma Canonical8XY5(w: bv16)
    requires IsInstance(Op8XY5, w)
    ensures Dispatch(w) == Some(Op8XY5)
  {
  }

  lemma Canonical8XY6(w: bv16)
    requires IsInstance(Op8XY6, w)
    ensures Dispatch(w) == Some(Op8XY6)
  {
  }

  lemma Canonical8XY7(w: bv16)
    requires IsInstance(Op8XY7, w)
    ensures Dispatch(w) == Some(Op8XY7)
  {
  }

  lemma Canonical8XYE(w: bv16)
    requires IsInstance(Op8XYE, w)
    ensures Dispatch(w) == Some(Op8XYE)
  {
  }

  lemma Canonical9XY0(w: bv16)
    requires IsInstance(Op9XY0, w)
    ensures Dispatch(w) == Some(Op9XY0)
  {
  }

  lemma CanonicalANNN(w: bv16)
    requires IsInstance(OpANNN, w)
    ensures Dispatch(w) == Some(OpANNN)
  {
  }

  lemma CanonicalBNNN(w: bv16)
    requires IsInstance(OpBNNN, w)
    ensures Dispatch(w) == Some(OpBNNN)
  {
  }

  lemma CanonicalCXNN(w: bv16)
    requires IsInstance(OpCXNN, w)
    ensures Dispatch(w) == Some(OpCXNN)
  {
  }

  lemma CanonicalDXYN(w: bv16)
    requires IsInstance(OpDXYN, w)
    ensures Dispatch(w) == Some(OpDXYN)
  {
  }

  lemma CanonicalEX9E(w: bv16)
    requires IsInstance(OpEX9E, w)
    ensures Dispatch(w) == Some(OpEX9E)
  {
  }

  lemma CanonicalEXA1(w: bv16)
    requires IsInstance(OpEXA1, w)
    ensures Dispatch(w) == Some(OpEXA1)
  {
  }

  lemma CanonicalFX07(w: bv16)
    requires IsInstance(OpFX07, w)
    ensures Dispatch(w) == Some(OpFX07)
  {
  }

  lemma CanonicalFX0A(w: bv16)
    requires IsInstance(OpFX0A, w)
    ensures Dispatch(w) == Some(OpFX0A)
  {
  }

  lemma CanonicalFX15(w: bv16)
    requires IsInstance(OpFX15, w)
    ensures Dispatch(w) == Some(OpFX15)
  {
  }

  lemma CanonicalFX18(w: bv16)
    requires IsInstance(OpFX18, w)
    ensures Dispatch(w) == Some(OpFX18)
  {
  }

  lemma CanonicalFX1E(w: bv16)
    requires IsInstance(OpFX1E, w)
    ensures Dispatch(w) == Some(OpFX1E)
  {
  }

  lemma CanonicalFX29(w: bv16)
    requires IsInstance(OpFX29, w)
    ensures Dispatch(w) == Some(OpFX29)
  {
  }

  lemma CanonicalFX33(w: bv16)
    requires IsInstance(OpFX33, w)
    ensures Dispatch(w) == Some(OpFX33)
  {
  }

  lemma CanonicalFX55(w: bv16)
    requires IsInstance(OpFX55, w)
    ensures Dispatch(w) == Some(OpFX55)
  {
  }

  lemma CanonicalFX65(w: bv16)
    requires IsInstance(OpFX65, w)
    ensures Dispatch(w) == Some(OpFX65)
  {
  }

  /** The canonical-instance property, seven forms at a time. */
  lemma CanonicalGroup1(op: Opcode, w: bv16)
    requires op.Op00E0? || op.Op00EE? || op.Op0NNN? || op.Op1NNN? || op.Op2NNN? || op.Op3XNN? || op.Op4XNN?
    requires IsInstance(op, w)
    requires op == Op0NNN ==> w & 0x00E0 != w && w & 0x00EE != w
    ensures Dispatch(w) == Some(op)
  {
    match op
    case Op00E0 => Canonical00E0(w);
    case Op00EE => Canonical00EE(w);
    case Op0NNN => Canonical0NNN(w);
    case Op1NNN => Canonical1NNN(w);
    case Op2NNN => Canonical2NNN(w);
    case Op3XNN => Canonical3XNN(w);
    case Op4XNN => Canonical4XNN(w);
  }

  lemma CanonicalGroup2(op: Opcode, w: bv16)
    requires op.Op5XY0? || op.Op6XNN? || op.Op7XNN? || op.Op8XY0? || op.Op8XY1? || op.Op8XY2? || op.Op8XY3?
    requires IsInstance(op, w)
    ensures Dispatch(w) == Some(op)
  {
    match op
    case Op5XY0 => Canonical5XY0(w);
    case Op6XNN => Canonical6XNN(w);
    case Op7XNN => Canonical7XNN(w);
    case Op8XY0 => Canonical8XY0(w);
    case Op8XY1 => Canonical8XY1(w);
    case Op8XY2 => Canonical8XY2(w);
    case Op8XY3 => Canonical8XY3(w);
  }

  lemma CanonicalGroup3(op: Opcode, w: bv16)
    requires op.Op8XY4? || op.Op8XY5? || op.Op8XY6? || op.Op8XY7? || op.Op8XYE? || op.Op9XY0? || op.OpANNN?
    requires IsInstance(op, w)
    ensures Dispatch(w) == Some(op)
  {
    match op
    case Op8XY4 => Canonical8XY4(w);
    case Op8XY5 => Canonical8XY5(w);
    case Op8XY6 => Canonical8XY6(w);
    case Op8XY7 => Canonical8XY7(w);
    case Op8XYE => Canonical8XYE(w);
    case Op9XY0 => Canonical9XY0(w);
    case OpANNN => CanonicalANNN(w);
  }

  lemma CanonicalGroup4(op: Opcode, w: bv16)
    requires op.OpBNNN? || op.OpCXNN? || op.OpDXYN? || op.OpEX9E? || op.OpEXA1? || op.OpFX07? || op.OpFX0A?
    requires IsInstance(op, w)
    ensures Dispatch(w) == Some(op)
  {
    match op
    case OpBNNN => CanonicalBNNN(w);
    case OpCXNN => CanonicalCXNN(w);
    case OpDXYN => CanonicalDXYN(w);
    case OpEX9E => CanonicalEX9E(w);
    case OpEXA1 => CanonicalEXA1(w);
    case OpFX07 => CanonicalFX07(w);
    case OpFX0A => CanonicalFX0A(w);
  }

  lemma CanonicalGroup5(op: Opcode, w: bv16)
    requires op.OpFX15? || op.OpFX18? || op.OpFX1E? || op.OpFX29? || op.OpFX33? || op.OpFX55? || op.OpFX65?
    requires IsInstance(op, w)
    ensures Dispatch(w) == Some(op)
  {
    match op
    case OpFX15 => CanonicalFX15(w);
    case OpFX18 => CanonicalFX18(w);
    case OpFX1E => CanonicalFX1E(w);
    case OpFX29 => CanonicalFX29(w);
    case OpFX33 => CanonicalFX33(w);
    case OpFX55 => CanonicalFX55(w);
    case OpFX65 => CanonicalFX65(w);
  }

  /** Every canonical instance of every form reaches its own handler, as the stricter-mask-first
    * ordering promises (0NNN only where the clear-screen and return masks do not already cover it). */
  lemma CanonicalInstance(op: Opcode, w: bv16)
    requires IsInstance(op, w)
    requires op == Op0NNN ==> w & 0x00E0 != w && w & 0x00EE != w
    ensures Dispatch(w) == Some(op)
  {
    if op.Op00E0? || op.Op00EE? || op.Op0NNN? || op.Op1NNN? || op.Op2NNN? || op.Op3XNN? || op.Op4XNN? {
      CanonicalGroup1(op, w);
    } else if op.Op5XY0? || op.Op6XNN? || op.Op7XNN? || op.Op8XY0? || op.Op8XY1? || op.Op8XY2? || op.Op8XY3? {
      CanonicalGroup2(op, w);
    } else if op.Op8XY4? || op.Op8XY5? || op.Op8XY6? || op.Op8XY7? || op.Op8XYE? || op.Op9XY0? || op.OpANNN? {
      CanonicalGroup3(op, w);
    } else if op.OpBNNN? || op.OpCXNN? || op.OpDXYN? || op.OpEX9E? || op.OpEXA1? || op.OpFX07? || op.OpFX0A? {
      CanonicalGroup4(op, w);
    } else {
      CanonicalGroup5(op, w);
    }
  }

  /** Any word whose bits lie within 0x00E0, 0x0000 included, clears the screen; 0x00EE returns. */
  lemma ClearAndReturn(w: bv16)
    ensures w & 0x00E0 == w ==> Dispatch(w) == Some(Op00E0)
    ensures Dispatch(0x00EE) == Some(Op00EE)
  {
  }

  /** A malformed 5XY? word with a nonzero low nibble is absorbed by the looser 7XNN mask. */
  lemma MalformedSkipIsAdd(w: bv16)
    requires w >> 12 == 5 && w & 0xF != 0
    ensures Dispatch(w) == Some(Op7XNN)
  {
  }

  /** A malformed 9XY? word with an odd low nibble is absorbed by the BNNN mask, a jump. */
  lemma MalformedSkipIsJump(w: bv16)
    requires w >> 12 == 9 && w & 1 == 1
    ensures Dispatch(w) == Some(OpBNNN)
  {
  }

  /** A word no mask covers, such as 0xF0FF, stops execution. */
  lemma UncoveredStops()
    ensures Dispatch(0xF0FF) == None
  {
  }

  /** The handler an 8XY? word reaches, by its low nibble: the eight arithmetic forms, then the shift
    * left for the remaining even nibbles, whose bits lie within 0xE, and a load of I for the odd ones. */
  function ArithForm(n: bv16): Opcode
  {
    if n == 0 then Op8XY0 else if n == 1 then Op8XY1 else if n == 2 then Op8XY2 else if n == 3 then Op8XY3
    else if n == 4 then Op8XY4 else if n == 5 then Op8XY5 else if n == 6 then Op8XY6 else if n == 7 then Op8XY7
    else if n & 1 == 0 then Op8XYE else OpANNN
  }

  /** Inside the 8XY? family only the low nibble selects the handler. */
  lemma ArithFamily(w: bv16)
    requires w >> 12 == 8
    ensures Dispatch(w) == Some(ArithForm(w & 0xF))
  {
  }

  /** The handler an FX?? word reaches, by its low byte, or None when no FX?? mask covers it. */
  function MiscForm(b: bv16): Option<Opcode>
  {
    if b & 0x07 == b then Some(OpFX07) else if b & 0x0A == b then Some(OpFX0A) else if b & 0x15 == b then Some(OpFX15)
    else if b & 0x18 == b then Some(OpFX18) else if b & 0x1E == b then Some(OpFX1E) else if b & 0x29 == b then Some(OpFX29)
    else if b & 0x33 == b then Some(OpFX33) else if b & 0x55 == b then Some(OpFX55) else if b & 0x65 == b then Some(OpFX65)
    else None
  }

  /** Inside the FX?? family only the low byte selects the handler. */
  lemma MiscFamily(w: bv16)
    requires w >> 12 == 0xF
    ensures Dispatch(w) == MiscForm(w & 0xFF)
  {
  }

  /** Operand fields of an opcode word. */
  function FieldX(w: bv16): (x: nat) ensures x < 16 { ((w >> 8) & 0xF) as nat }
  function FieldY(w: bv16): (y: nat) ensures y < 16 { ((w >> 4) & 0xF) as nat }
  function FieldN(w: bv16): (n: nat) ensures n < 16 { (w & 0xF) as nat }
  function FieldNN(w: bv16): bv8 { (w & 0xFF) as bv8 }
  function FieldNNN(w: bv16): (n: nat) ensures n < 0x1000 { (w & 0x0FFF) as nat }
}
