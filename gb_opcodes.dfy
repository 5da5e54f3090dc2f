/** The Game Boy CPU's instruction tables: for each opcode the handler the interpreter runs and the
  * cycles it initially costs, the same for the 0xCB-prefixed opcodes, and the length of each
  * instruction in bytes. Handlers are named by what they do, with their operands. */
module GbOpcodes {

  /** The 8-bit registers. */
  datatype R8 = A | B | C | D | E | H | L

  /** A byte operand in place: a register, or the memory byte HL points at. */
  datatype Loc = Reg(r: R8) | MemHL

  /** A byte read by an instruction: from a place, or the immediate byte after the opcode. */
  datatype Src = At(loc: Loc) | Imm

  /** The register pairs. */
  datatype Pair = BC | DE | HL | SP | AF

  /** Branch conditions: Z clear, Z set, C clear, C set. */
  datatype Cond = NZ | Z | NC | CY

  /** The eight accumulator operations of rows 0x80-0xBF. */
  datatype AluOp = AddA | AdcA | SubA | SbcA | AndA | XorA | OrA | CpA

  /** The short rotates of A. */
  datatype RotOp = Rlca | Rla | Rrca | Rra

  /** The eight rotate and shift operations of the prefixed rows 0x00-0x3F. */
  datatype ShiftOp = RlcN | RrcN | RlN | RrN | SlaN | SraN | SwapN | SrlN

  /** Handlers of the main table. */
  datatype Instr =
    | Nop | Invalid
    | Ld(dst: Loc, src: Src) | LdMemHlImm
    | LdAMem(p: Pair) | LdMemA(p: Pair) | LdANn | LdNnA
    | LdAHl(step: int) | LdHlA(step: int)
    | LdhNA | LdhAN | LdhAC | LdhCA
    | Ld16(p: Pair) | LdSpHl | LdHlSpN | LdNnSp
    | Push(p: Pair) | Pop(p: Pair)
    | Alu(op: AluOp, src: Src) | Inc(loc: Loc) | Dec(loc: Loc)
    | AddHl(p: Pair) | AddSpN | Inc16(p: Pair) | Dec16(p: Pair)
    | Daa | Cpl | Ccf | Scf | Halt | Stop | Di | Ei | RotA(rot: RotOp)
    | Jp | JpCond(cc: Cond) | JpHl | Jr | JrCond(cc: Cond)
    | Call | CallCond(cc: Cond) | Rst(addr: int) | Ret | RetCond(cc: Cond) | Reti

  /** Handlers of the prefixed table. */
  datatype ExtInstr = Shift(op: ShiftOp, loc: Loc) | BitTest(bit: int, loc: Loc) | BitRes(bit: int, loc: Loc) | BitSet(bit: int, loc: Loc)

  /** A table entry: the cycles the instruction takes and its handler. */
  datatype Instruction<T> = Instruction(cycles: int, operation: T)

  /** The main instruction table: initial cycle count and handler of each opcode, row by row of 16. */
  const INS: seq<seq<Instruction<Instr>>> := [
      INS_ROW_0, INS_ROW_1, INS_ROW_2, INS_ROW_3, INS_ROW_4, INS_ROW_5, INS_ROW_6, INS_ROW_7, INS_ROW_8, INS_ROW_9, INS_ROW_10, INS_ROW_11, INS_ROW_12, INS_ROW_13, INS_ROW_14, INS_ROW_15
    ]

  /** The 0xCB-prefixed instruction table. */
  const EXT_INS: seq<seq<Instruction<ExtInstr>>> := [
      EXT_ROW_0, EXT_ROW_1, EXT_ROW_2, EXT_ROW_3, EXT_ROW_4, EXT_ROW_5, EXT_ROW_6, EXT_ROW_7, EXT_ROW_8, EXT_ROW_9, EXT_ROW_10, EXT_ROW_11, EXT_ROW_12, EXT_ROW_13, EXT_ROW_14, EXT_ROW_15
    ]

  /** Bytes of each instruction, the opcode included. */
  const INS_WORDS: seq<seq<int>> := [WORDS_ROW_0, WORDS_ROW_1, WORDS_ROW_2, WORDS_ROW_3, WORDS_ROW_4, WORDS_ROW_5, WORDS_ROW_6, WORDS_ROW_7, WORDS_ROW_8, WORDS_ROW_9, WORDS_ROW_10, WORDS_ROW_11, WORDS_ROW_12, WORDS_ROW_13, WORDS_ROW_14, WORDS_ROW_15]

  const WORDS_ROW_0: seq<int> := [1, 3, 1, 1, 1, 1, 2, 1, 3, 1, 1, 1, 1, 1, 2, 1]
  const WORDS_ROW_1: seq<int> := [2, 3, 1, 1, 1, 1, 2, 1, 2, 1, 1, 1, 1, 1, 2, 1]
  const WORDS_ROW_2: seq<int> := [2, 3, 1, 1, 1, 1, 2, 1, 2, 1, 1, 1, 1, 1, 2, 1]
  const WORDS_ROW_3: seq<int> := [2, 3, 1, 1, 1, 1, 2, 1, 2, 1, 1, 1, 1, 1, 2, 1]
  const WORDS_ROW_4: seq<int> := [1, 1, 1, 1, 1, 1, 1, 1, 1, 1, 1, 1, 1, 1, 1, 1]
  const WORDS_ROW_5: seq<int> := [1, 1, 1, 1, 1, 1, 1, 1, 1, 1, 1, 1, 1, 1, 1, 1]
  const WORDS_ROW_6: seq<int> := [1, 1, 1, 1, 1, 1, 1, 1, 1, 1, 1, 1, 1, 1, 1, 1]
  const WORDS_ROW_7: seq<int> := [1, 1, 1, 1, 1, 1, 1, 1, 1, 1, 1, 1, 1, 1, 1, 1]
  const WORDS_ROW_8: seq<int> := [1, 1, 1, 1, 1, 1, 1, 1, 1, 1, 1, 1, 1, 1, 1, 1]
  const WORDS_ROW_9: seq<int> := [1, 1, 1, 1, 1, 1, 1, 1, 1, 1, 1, 1, 1, 1, 1, 1]
  const WORDS_ROW_10: seq<int> := [1, 1, 1, 1, 1, 1, 1, 1, 1, 1, 1, 1, 1, 1, 1, 1]
  const WORDS_ROW_11: seq<int> := [1, 1, 1, 1, 1, 1, 1, 1, 1, 1, 1, 1, 1, 1, 1, 1]
  const WORDS_ROW_12: seq<int> := [1, 1, 3, 3, 3, 1, 2, 1, 1, 1, 3, 2, 3, 3, 2, 1]
  const WORDS_ROW_13: seq<int> := [1, 1, 3, 1, 3, 1, 2, 1, 1, 1, 3, 1, 3, 1, 2, 1]
  const WORDS_ROW_14: seq<int> := [2, 1, 1, 1, 1, 1, 2, 1, 2, 1, 3, 1, 1, 1, 2, 1]
  const WORDS_ROW_15: seq<int> := [2, 1, 1, 1, 1, 1, 2, 1, 2, 1, 3, 1, 1, 1, 2, 1]

  // Rows 0x00-0xF0 of the main table and of the prefixed table.
  const INS_ROW_0: seq<Instruction<Instr>> := [
    Instruction(4, Nop),
    Instruction(12, Ld16(BC)),
    Instruction(8, LdMemA(BC)),
    Instruction(8, Inc16(BC)),
    Instruction(4, Inc(Reg(B))),
    Instruction(4, Dec(Reg(B))),
    Instruction(8, Ld(Reg(B), Imm)),
    Instruction(4, RotA(Rlca)),
    Instruction(20, LdNnSp),
    Instruction(8, AddHl(BC)),
    Instruction(8, LdAMem(BC)),
    Instruction(8, Dec16(BC)),
    Instruction(4, Inc(Reg(C))),
    Instruction(4, Dec(Reg(C))),
    Instruction(8, Ld(Reg(C), Imm)),
    Instruction(4, RotA(Rrca))]
  const INS_ROW_1: seq<Instruction<Instr>> := [
    Instruction(0, Stop),
    Instruction(12, Ld16(DE)),
    Instruction(8, LdMemA(DE)),
    Instruction(8, Inc16(DE)),
    Instruction(4, Inc(Reg(D))),
    Instruction(4, Dec(Reg(D))),
    Instruction(8, Ld(Reg(D), Imm)),
    Instruction(4, RotA(Rla)),
    Instruction(12, Jr),
    Instruction(8, AddHl(DE)),
    Instruction(8, LdAMem(DE)),
    Instruction(8, Dec16(DE)),
    Instruction(4, Inc(Reg(E))),
    Instruction(4, Dec(Reg(E))),
    Instruction(8, Ld(Reg(E), Imm)),
    Instruction(4, RotA(Rra))]
  const INS_ROW_2: seq<Instruction<Instr>> := [
    Instruction(8, JrCond(NZ)),
    Instruction(12, Ld16(HL)),
    Instruction(8, LdHlA(1)),
    Instruction(8, Inc16(HL)),
    Instruction(4, Inc(Reg(H))),
    Instruction(4, Dec(Reg(H))),
    Instruction(8, Ld(Reg(H), Imm)),
    Instruction(4, Daa),
    Instruction(8, JrCond(Z)),
    Instruction(8, AddHl(HL)),
    Instruction(8, LdAHl(1)),
    Instruction(8, Dec16(HL)),
    Instruction(4, Inc(Reg(L))),
    Instruction(4, Dec(Reg(L))),
    Instruction(8, Ld(Reg(L), Imm)),
    Instruction(4, Cpl)]
  const INS_ROW_3: seq<Instruction<Instr>> := [
    Instruction(8, JrCond(NC)),
    Instruction(12, Ld16(SP)),
    Instruction(8, LdHlA(-1)),
    Instruction(8, Inc16(SP)),
    Instruction(12, Inc(MemHL)),
    Instruction(12, Dec(MemHL)),
    Instruction(12, LdMemHlImm),
    Instruction(4, Scf),
    Instruction(8, JrCond(CY)),
    Instruction(8, AddHl(SP)),
    Instruction(8, LdAHl(-1)),
    Instruction(8, Dec16(SP)),
    Instruction(4, Inc(Reg(A))),
    Instruction(4, Dec(Reg(A))),
    Instruction(8, Ld(Reg(A), Imm)),
    Instruction(4, Ccf)]
  const INS_ROW_4: seq<Instruction<Instr>> := [
    Instruction(4, Ld(Reg(B), At(Reg(B)))),
    Instruction(4, Ld(Reg(B), At(Reg(C)))),
    Instruction(4, Ld(Reg(B), At(Reg(D)))),
    Instruction(4, Ld(Reg(B), At(Reg(E)))),
    Instruction(4, Ld(Reg(B), At(Reg(H)))),
    Instruction(4, Ld(Reg(B), At(Reg(L)))),
    Instruction(8, Ld(Reg(B), At(MemHL))),
    Instruction(4, Ld(Reg(B), At(Reg(A)))),
    Instruction(4, Ld(Reg(C), At(Reg(B)))),
    Instruction(4, Ld(Reg(C), At(Reg(C)))),
    Instruction(4, Ld(Reg(C), At(Reg(D)))),
    Instruction(4, Ld(Reg(C), At(Reg(E)))),
    Instruction(4, Ld(Reg(C), At(Reg(H)))),
    Instruction(4, Ld(Reg(C), At(Reg(L)))),
    Instruction(8, Ld(Reg(C), At(MemHL))),
    Instruction(4, Ld(Reg(C), At(Reg(A))))]
  const INS_ROW_5: seq<Instruction<Instr>> := [
    Instruction(4, Ld(Reg(D), At(Reg(B)))),
    Instruction(4, Ld(Reg(D), At(Reg(C)))),
    Instruction(4, Ld(Reg(D), At(Reg(D)))),
    Instruction(4, Ld(Reg(D), At(Reg(E)))),
    Instruction(4, Ld(Reg(D), At(Reg(H)))),
    Instruction(4, Ld(Reg(D), At(Reg(L)))),
    Instruction(8, Ld(Reg(D), At(MemHL))),
    Instruction(4, Ld(Reg(D), At(Reg(A)))),
    Instruction(4, Ld(Reg(E), At(Reg(B)))),
    Instruction(4, Ld(Reg(E), At(Reg(C)))),
    Instruction(4, Ld(Reg(E), At(Reg(D)))),
    Instruction(4, Ld(Reg(E), At(Reg(E)))),
    Instruction(4, Ld(Reg(E), At(Reg(H)))),
    Instruction(4, Ld(Reg(E), At(Reg(L)))),
    Instruction(8, Ld(Reg(E), At(MemHL))),
    Instruction(4, Ld(Reg(E), At(Reg(A))))]
  const INS_ROW_6: seq<Instruction<Instr>> := [
    Instruction(4, Ld(Reg(H), At(Reg(B)))),
    Instruction(4, Ld(Reg(H), At(Reg(C)))),
    Instruction(4, Ld(Reg(H), At(Reg(D)))),
    Instruction(4, Ld(Reg(H), At(Reg(E)))),
    Instruction(4, Ld(Reg(H), At(Reg(H)))),
    Instruction(4, Ld(Reg(H), At(Reg(L)))),
    Instruction(8, Ld(Reg(H), At(MemHL))),
    Instruction(4, Ld(Reg(H), At(Reg(A)))),
    Instruction(4, Ld(Reg(L), At(Reg(B)))),
    Instruction(4, Ld(Reg(L), At(Reg(C)))),
    Instruction(4, Ld(Reg(L), At(Reg(D)))),
    Instruction(4, Ld(Reg(L), At(Reg(E)))),
    Instruction(4, Ld(Reg(L), At(Reg(H)))),
    Instruction(4, Ld(Reg(L), At(Reg(L)))),
    Instruction(8, Ld(Reg(L), At(MemHL))),
    Instruction(4, Ld(Reg(L), At(Reg(A))))]
  const INS_ROW_7: seq<Instruction<Instr>> := [
    Instruction(8, Ld(MemHL, At(Reg(B)))),
    Instruction(8, Ld(MemHL, At(Reg(C)))),
    Instruction(8, Ld(MemHL, At(Reg(D)))),
    Instruction(8, Ld(MemHL, At(Reg(E)))),
    Instruction(8, Ld(MemHL, At(Reg(H)))),
    Instruction(8, Ld(MemHL, At(Reg(L)))),
    Instruction(0, Halt),
    Instruction(8, Ld(MemHL, At(Reg(A)))),
    Instruction(4, Ld(Reg(A), At(Reg(B)))),
    Instruction(4, Ld(Reg(A), At(Reg(C)))),
    Instruction(4, Ld(Reg(A), At(Reg(D)))),
    Instruction(4, Ld(Reg(A), At(Reg(E)))),
    Instruction(4, Ld(Reg(A), At(Reg(H)))),
    Instruction(4, Ld(Reg(A), At(Reg(L)))),
    Instruction(8, Ld(Reg(A), At(MemHL))),
    Instruction(4, Ld(Reg(A), At(Reg(A))))]
  const INS_ROW_8: seq<Instruction<Instr>> := [
    Instruction(4, Alu(AddA, At(Reg(B)))),
    Instruction(4, Alu(AddA, At(Reg(C)))),
    Instruction(4, Alu(AddA, At(Reg(D)))),
    Instruction(4, Alu(AddA, At(Reg(E)))),
    Instruction(4, Alu(AddA, At(Reg(H)))),
    Instruction(4, Alu(AddA, At(Reg(L)))),
    Instruction(8, Alu(AddA, At(MemHL))),
    Instruction(4, Alu(AddA, At(Reg(A)))),
    Instruction(4, Alu(AdcA, At(Reg(B)))),
    Instruction(4, Alu(AdcA, At(Reg(C)))),
    Instruction(4, Alu(AdcA, At(Reg(D)))),
    Instruction(4, Alu(AdcA, At(Reg(E)))),
    Instruction(4, Alu(AdcA, At(Reg(H)))),
    Instruction(4, Alu(AdcA, At(Reg(L)))),
    Instruction(8, Alu(AdcA, At(MemHL))),
    Instruction(4, Alu(AdcA, At(Reg(A))))]
  const INS_ROW_9: seq<Instruction<Instr>> := [
    Instruction(4, Alu(SubA, At(Reg(B)))),
    Instruction(4, Alu(SubA, At(Reg(C)))),
    Instruction(4, Alu(SubA, At(Reg(D)))),
    Instruction(4, Alu(SubA, At(Reg(E)))),
    Instruction(4, Alu(SubA, At(Reg(H)))),
    Instruction(4, Alu(SubA, At(Reg(L)))),
    Instruction(8, Alu(SubA, At(MemHL))),
    Instruction(4, Alu(SubA, At(Reg(A)))),
    Instruction(4, Alu(SbcA, At(Reg(B)))),
    Instruction(4, Alu(SbcA, At(Reg(C)))),
    Instruction(4, Alu(SbcA, At(Reg(D)))),
    Instruction(4, Alu(SbcA, At(Reg(E)))),
    Instruction(4, Alu(SbcA, At(Reg(H)))),
    Instruction(4, Alu(SbcA, At(Reg(L)))),
    Instruction(8, Alu(SbcA, At(MemHL))),
    Instruction(4, Alu(SbcA, At(Reg(A))))]
  const INS_ROW_10: seq<Instruction<Instr>> := [
    Instruction(4, Alu(AndA, At(Reg(B)))),
    Instruction(4, Alu(AndA, At(Reg(C)))),
    Instruction(4, Alu(AndA, At(Reg(D)))),
    Instruction(4, Alu(AndA, At(Reg(E)))),
    Instruction(4, Alu(AndA, At(Reg(H)))),
    Instruction(4, Alu(AndA, At(Reg(L)))),
    Instruction(8, Alu(AndA, At(MemHL))),
    Instruction(4, Alu(AndA, At(Reg(A)))),
    Instruction(4, Alu(XorA, At(Reg(B)))),
    Instruction(4, Alu(XorA, At(Reg(C)))),
    Instruction(4, Alu(XorA, At(Reg(D)))),
    Instruction(4, Alu(XorA, At(Reg(E)))),
    Instruction(4, Alu(XorA, At(Reg(H)))),
    Instruction(4, Alu(XorA, At(Reg(L)))),
    Instruction(8, Alu(XorA, At(MemHL))),
    Instruction(4, Alu(XorA, At(Reg(A))))]
  const INS_ROW_11: seq<Instruction<Instr>> := [
    Instruction(4, Alu(OrA, At(Reg(B)))),
    Instruction(4, Alu(OrA, At(Reg(C)))),
    Instruction(4, Alu(OrA, At(Reg(D)))),
    Instruction(4, Alu(OrA, At(Reg(E)))),
    Instruction(4, Alu(OrA, At(Reg(H)))),
    Instruction(4, Alu(OrA, At(Reg(L)))),
    Instruction(8, Alu(OrA, At(MemHL))),
    Instruction(4, Alu(OrA, At(Reg(A)))),
    Instruction(4, Alu(CpA, At(Reg(B)))),
    Instruction(4, Alu(CpA, At(Reg(C)))),
    Instruction(4, Alu(CpA, At(Reg(D)))),
    Instruction(4, Alu(CpA, At(Reg(E)))),
    Instruction(4, Alu(CpA, At(Reg(H)))),
    Instruction(4, Alu(CpA, At(Reg(L)))),
    Instruction(8, Alu(CpA, At(MemHL))),
    Instruction(4, Alu(CpA, At(Reg(A))))]
  const INS_ROW_12: seq<Instruction<Instr>> := [
    Instruction(8, RetCond(NZ)),
    Instruction(12, Pop(BC)),
    Instruction(12, JpCond(NZ)),
    Instruction(16, Jp),
    Instruction(12, CallCond(NZ)),
    Instruction(16, Push(BC)),
    Instruction(8, Alu(AddA, Imm)),
    Instruction(16, Rst(0x00)),
    Instruction(8, RetCond(Z)),
    Instruction(16, Ret),
    Instruction(12, JpCond(Z)),
    Instruction(0, Invalid),
    Instruction(12, CallCond(Z)),
    Instruction(24, Call),
    Instruction(8, Alu(AdcA, Imm)),
    Instruction(16, Rst(0x08))]
  const INS_ROW_13: seq<Instruction<Instr>> := [
    Instruction(8, RetCond(NC)),
    Instruction(12, Pop(DE)),
    Instruction(12, JpCond(NC)),
    Instruction(0, Invalid),
    Instruction(12, CallCond(NC)),
    Instruction(16, Push(DE)),
    Instruction(8, Alu(SubA, Imm)),
    Instruction(16, Rst(0x10)),
    Instruction(8, RetCond(CY)),
    Instruction(16, Reti),
    Instruction(16, JpCond(CY)),
    Instruction(0, Invalid),
    Instruction(12, CallCond(CY)),
    Instruction(0, Invalid),
    Instruction(8, Alu(SbcA, Imm)),
    Instruction(16, Rst(0x18))]
  const INS_ROW_14: seq<Instruction<Instr>> := [
    Instruction(12, LdhNA),
    Instruction(12, Pop(HL)),
    Instruction(8, LdhCA),
    Instruction(0, Invalid),
    Instruction(0, Invalid),
    Instruction(16, Push(HL)),
    Instruction(8, Alu(AndA, Imm)),
    Instruction(16, Rst(0x20)),
    Instruction(16, AddSpN),
    Instruction(4, JpHl),
    Instruction(16, LdNnA),
    Instruction(0, Invalid),
    Instruction(0, Invalid),
    Instruction(0, Invalid),
    Instruction(8, Alu(XorA, Imm)),
    Instruction(16, Rst(0x28))]
  const INS_ROW_15: seq<Instruction<Instr>> := [
    Instruction(12, LdhAN),
    Instruction(12, Pop(AF)),
    Instruction(8, LdhAC),
    Instruction(4, Di),
    Instruction(0, Invalid),
    Instruction(16, Push(AF)),
    Instruction(8, Alu(OrA, Imm)),
    Instruction(16, Rst(0x30)),
    Instruction(12, LdHlSpN),
    Instruction(8, LdSpHl),
    Instruction(16, LdANn),
    Instruction(4, Ei),
    Instruction(0, Invalid),
    Instruction(0, Invalid),
    Instruction(8, Alu(CpA, Imm)),
    Instruction(16, Rst(0x38))]

  const EXT_ROW_0: seq<Instruction<ExtInstr>> := [
    Instruction(8, Shift(RlcN, Reg(B))),
    Instruction(8, Shift(RlcN, Reg(C))),
    Instruction(8, Shift(RlcN, Reg(D))),
    Instruction(8, Shift(RlcN, Reg(E))),
    Instruction(8, Shift(RlcN, Reg(H))),
    Instruction(8, Shift(RlcN, Reg(L))),
    Instruction(16, Shift(RlcN, MemHL)),
    Instruction(8, Shift(RlcN, Reg(A))),
    Instruction(8, Shift(RrcN, Reg(B))),
    Instruction(8, Shift(RrcN, Reg(C))),
    Instruction(8, Shift(RrcN, Reg(D))),
    Instruction(8, Shift(RrcN, Reg(E))),
    Instruction(8, Shift(RrcN, Reg(H))),
    Instruction(8, Shift(RrcN, Reg(L))),
    Instruction(16, Shift(RrcN, MemHL)),
    Instruction(8, Shift(RrcN, Reg(A)))]
  const EXT_ROW_1: seq<Instruction<ExtInstr>> := [
    Instruction(8, Shift(RlN, Reg(B))),
    Instruction(8, Shift(RlN, Reg(C))),
    Instruction(8, Shift(RlN, Reg(D))),
    Instruction(8, Shift(RlN, Reg(E))),
    Instruction(8, Shift(RlN, Reg(H))),
    Instruction(8, Shift(RlN, Reg(L))),
    Instruction(16, Shift(RlN, MemHL)),
    Instruction(8, Shift(RlN, Reg(A))),
    Instruction(8, Shift(RrN, Reg(B))),
    Instruction(8, Shift(RrN, Reg(C))),
    Instruction(8, Shift(RrN, Reg(D))),
    Instruction(8, Shift(RrN, Reg(E))),
    Instruction(8, Shift(RrN, Reg(H))),
    Instruction(8, Shift(RrN, Reg(L))),
    Instruction(16, Shift(RrN, MemHL)),
    Instruction(8, Shift(RrN, Reg(A)))]
  const EXT_ROW_2: seq<Instruction<ExtInstr>> := [
    Instruction(8, Shift(SlaN, Reg(B))),
    Instruction(8, Shift(SlaN, Reg(C))),
    Instruction(8, Shift(SlaN, Reg(D))),
    Instruction(8, Shift(SlaN, Reg(E))),
    Instruction(8, Shift(SlaN, Reg(H))),
    Instruction(8, Shift(SlaN, Reg(L))),
    Instruction(16, Shift(SlaN, MemHL)),
    Instruction(8, Shift(SlaN, Reg(A))),
    Instruction(8, Shift(SraN, Reg(B))),
    Instruction(8, Shift(SraN, Reg(C))),
    Instruction(8, Shift(SraN, Reg(D))),
    Instruction(8, Shift(SraN, Reg(E))),
    Instruction(8, Shift(SraN, Reg(H))),
    Instruction(8, Shift(SraN, Reg(L))),
    Instruction(16, Shift(SraN, MemHL)),
    Instruction(8, Shift(SraN, Reg(A)))]
  const EXT_ROW_3: seq<Instruction<ExtInstr>> := [
    Instruction(8, Shift(SwapN, Reg(B))),
    Instruction(8, Shift(SwapN, Reg(C))),
    Instruction(8, Shift(SwapN, Reg(D))),
    Instruction(8, Shift(SwapN, Reg(E))),
    Instruction(8, Shift(SwapN, Reg(H))),
    Instruction(8, Shift(SwapN, Reg(L))),
    Instruction(16, Shift(SwapN, MemHL)),
    Instruction(8, Shift(SwapN, Reg(A))),
    Instruction(8, Shift(SrlN, Reg(B))),
    Instruction(8, Shift(SrlN, Reg(C))),
    Instruction(8, Shift(SrlN, Reg(D))),
    Instruction(8, Shift(SrlN, Reg(E))),
    Instruction(8, Shift(SrlN, Reg(H))),
    Instruction(8, Shift(SrlN, Reg(L))),
    Instruction(16, Shift(SrlN, MemHL)),
    Instruction(8, Shift(SrlN, Reg(A)))]
  const EXT_ROW_4: seq<Instruction<ExtInstr>> := [
    Instruction(8, BitTest(0, Reg(B))),
    Instruction(8, BitTest(0, Reg(C))),
    Instruction(8, BitTest(0, Reg(D))),
    Instruction(8, BitTest(0, Reg(E))),
    Instruction(8, BitTest(0, Reg(H))),
    Instruction(8, BitTest(0, Reg(L))),
    Instruction(16, BitTest(0, MemHL)),
    Instruction(8, BitTest(0, Reg(A))),
    Instruction(8, BitTest(1, Reg(B))),
    Instruction(8, BitTest(1, Reg(C))),
    Instruction(8, BitTest(1, Reg(D))),
    Instruction(8, BitTest(1, Reg(E))),
    Instruction(8, BitTest(1, Reg(H))),
    Instruction(8, BitTest(1, Reg(L))),
    Instruction(16, BitTest(1, MemHL)),
    Instruction(8, BitTest(1, Reg(A)))]
  const EXT_ROW_5: seq<Instruction<ExtInstr>> := [
    Instruction(8, BitTest(2, Reg(B))),
    Instruction(8, BitTest(2, Reg(C))),
    Instruction(8, BitTest(2, Reg(D))),
    Instruction(8, BitTest(2, Reg(E))),
    Instruction(8, BitTest(2, Reg(H))),
    Instruction(8, BitTest(2, Reg(L))),
    Instruction(16, BitTest(2, MemHL)),
    Instruction(8, BitTest(2, Reg(A))),
    Instruction(8, BitTest(3, Reg(B))),
    Instruction(8, BitTest(3, Reg(C))),
    Instruction(8, BitTest(3, Reg(D))),
    Instruction(8, BitTest(3, Reg(E))),
    Instruction(8, BitTest(3, Reg(H))),
    Instruction(8, BitTest(3, Reg(L))),
    Instruction(16, BitTest(3, MemHL)),
    Instruction(8, BitTest(3, Reg(A)))]
  const EXT_ROW_6: seq<Instruction<ExtInstr>> := [
    Instruction(8, BitTest(4, Reg(B))),
    Instruction(8, BitTest(4, Reg(C))),
    Instruction(8, BitTest(4, Reg(D))),
    Instruction(8, BitTest(4, Reg(E))),
    Instruction(8, BitTest(4, Reg(H))),
    Instruction(8, BitTest(4, Reg(L))),
    Instruction(16, BitTest(4, MemHL)),
    Instruction(8, BitTest(4, Reg(A))),
    Instruction(8, BitTest(5, Reg(B))),
    Instruction(8, BitTest(5, Reg(C))),
    Instruction(8, BitTest(5, Reg(D))),
    Instruction(8, BitTest(5, Reg(E))),
    Instruction(8, BitTest(5, Reg(H))),
    Instruction(8, BitTest(5, Reg(L))),
    Instruction(16, BitTest(5, MemHL)),
    Instruction(8, BitTest(5, Reg(A)))]
  const EXT_ROW_7: seq<Instruction<ExtInstr>> := [
    Instruction(8, BitTest(6, Reg(B))),
    Instruction(8, BitTest(6, Reg(C))),
    Instruction(8, BitTest(6, Reg(D))),
    Instruction(8, BitTest(6, Reg(E))),
    Instruction(8, BitTest(6, Reg(H))),
    Instruction(8, BitTest(6, Reg(L))),
    Instruction(16, BitTest(6, MemHL)),
    Instruction(8, BitTest(6, Reg(A))),
    Instruction(8, BitTest(7, Reg(B))),
    Instruction(8, BitTest(7, Reg(C))),
    Instruction(8, BitTest(7, Reg(D))),
    Instruction(8, BitTest(7, Reg(E))),
    Instruction(8, BitTest(7, Reg(H))),
    Instruction(8, BitTest(7, Reg(L))),
    Instruction(16, BitTest(7, MemHL)),
    Instruction(8, BitTest(7, Reg(A)))]
  const EXT_ROW_8: seq<Instruction<ExtInstr>> := [
    Instruction(8, BitRes(0, Reg(B))),
    Instruction(8, BitRes(0, Reg(C))),
    Instruction(8, BitRes(0, Reg(D))),
    Instruction(8, BitRes(0, Reg(E))),
    Instruction(8, BitRes(0, Reg(H))),
    Instruction(8, BitRes(0, Reg(L))),
    Instruction(16, BitRes(0, MemHL)),
    Instruction(8, BitRes(0, Reg(A))),
    Instruction(8, BitRes(1, Reg(B))),
    Instruction(8, BitRes(1, Reg(C))),
    Instruction(8, BitRes(1, Reg(D))),
    Instruction(8, BitRes(1, Reg(E))),
    Instruction(8, BitRes(1, Reg(H))),
    Instruction(8, BitRes(1, Reg(L))),
    Instruction(16, BitRes(1, MemHL)),
    Instruction(8, BitRes(1, Reg(A)))]
  const EXT_ROW_9: seq<Instruction<ExtInstr>> := [
    Instruction(8, BitRes(2, Reg(B))),
    Instruction(8, BitRes(2, Reg(C))),
    Instruction(8, BitRes(2, Reg(D))),
    Instruction(8, BitRes(2, Reg(E))),
    Instruction(8, BitRes(2, Reg(H))),
    Instruction(8, BitRes(2, Reg(L))),
    Instruction(16, BitRes(2, MemHL)),
    Instruction(8, BitRes(2, Reg(A))),
    Instruction(8, BitRes(3, Reg(B))),
    Instruction(8, BitRes(3, Reg(C))),
    Instruction(8, BitRes(3, Reg(D))),
    Instruction(8, BitRes(3, Reg(E))),
    Instruction(8, BitRes(3, Reg(H))),
    Instruction(8, BitRes(3, Reg(L))),
    Instruction(16, BitRes(3, MemHL)),
    Instruction(8, BitRes(3, Reg(A)))]
  const EXT_ROW_10: seq<Instruction<ExtInstr>> := [
    Instruction(8, BitRes(4, Reg(B))),
    Instruction(8, BitRes(4, Reg(C))),
    Instruction(8, BitRes(4, Reg(D))),
    Instruction(8, BitRes(4, Reg(E))),
    Instruction(8, BitRes(4, Reg(H))),
    Instruction(8, BitRes(4, Reg(L))),
    Instruction(16, BitRes(4, MemHL)),
    Instruction(8, BitRes(4, Reg(A))),
    Instruction(8, BitRes(5, Reg(B))),
    Instruction(8, BitRes(5, Reg(C))),
    Instruction(8, BitRes(5, Reg(D))),
    Instruction(8, BitRes(5, Reg(E))),
    Instruction(8, BitRes(5, Reg(H))),
    Instruction(8, BitRes(5, Reg(L))),
    Instruction(16, BitRes(5, MemHL)),
    Instruction(8, BitRes(5, Reg(A)))]
  const EXT_ROW_11: seq<Instruction<ExtInstr>> := [
    Instruction(8, BitRes(6, Reg(B))),
    Instruction(8, BitRes(6, Reg(C))),
    Instruction(8, BitRes(6, Reg(D))),
    Instruction(8, BitRes(6, Reg(E))),
    Instruction(8, BitRes(6, Reg(H))),
    Instruction(8, BitRes(6, Reg(L))),
    Instruction(16, BitRes(6, MemHL)),
    Instruction(8, BitRes(6, Reg(A))),
    Instruction(8, BitRes(7, Reg(B))),
    Instruction(8, BitRes(7, Reg(C))),
    Instruction(8, BitRes(7, Reg(D))),
    Instruction(8, BitRes(7, Reg(E))),
    Instruction(8, BitRes(7, Reg(H))),
    Instruction(8, BitRes(7, Reg(L))),
    Instruction(16, BitRes(7, MemHL)),
    Instruction(8, BitRes(7, Reg(A)))]
  const EXT_ROW_12: seq<Instruction<ExtInstr>> := [
    Instruction(8, BitSet(0, Reg(B))),
    Instruction(8, BitSet(0, Reg(C))),
    Instruction(8, BitSet(0, Reg(D))),
    Instruction(8, BitSet(0, Reg(E))),
    Instruction(8, BitSet(0, Reg(H))),
    Instruction(8, BitSet(0, Reg(L))),
    Instruction(16, BitSet(0, MemHL)),
    Instruction(8, BitSet(0, Reg(A))),
    Instruction(8, BitSet(1, Reg(B))),
    Instruction(8, BitSet(1, Reg(C))),
    Instruction(8, BitSet(1, Reg(D))),
    Instruction(8, BitSet(1, Reg(E))),
    Instruction(8, BitSet(1, Reg(H))),
    Instruction(8, BitSet(1, Reg(L))),
    Instruction(16, BitSet(1, MemHL)),
    Instruction(8, BitSet(1, Reg(A)))]
  const EXT_ROW_13: seq<Instruction<ExtInstr>> := [
    Instruction(8, BitSet(2, Reg(B))),
    Instruction(8, BitSet(2, Reg(C))),
    Instruction(8, BitSet(2, Reg(D))),
    Instruction(8, BitSet(2, Reg(E))),
    Instruction(8, BitSet(2, Reg(H))),
    Instruction(8, BitSet(2, Reg(L))),
    Instruction(16, BitSet(2, MemHL)),
    Instruction(8, BitSet(2, Reg(A))),
    Instruction(8, BitSet(3, Reg(B))),
    Instruction(8, BitSet(3, Reg(C))),
    Instruction(8, BitSet(3, Reg(D))),
    Instruction(8, BitSet(3, Reg(E))),
    Instruction(8, BitSet(3, Reg(H))),
    Instruction(8, BitSet(3, Reg(L))),
    Instruction(16, BitSet(3, MemHL)),
    Instruction(8, BitSet(3, Reg(A)))]
  const EXT_ROW_14: seq<Instruction<ExtInstr>> := [
    Instruction(8, BitSet(4, Reg(B))),
    Instruction(8, BitSet(4, Reg(C))),
    Instruction(8, BitSet(4, Reg(D))),
    Instruction(8, BitSet(4, Reg(E))),
    Instruction(8, BitSet(4, Reg(H))),
    Instruction(8, BitSet(4, Reg(L))),
    Instruction(16, BitSet(4, MemHL)),
    Instruction(8, BitSet(4, Reg(A))),
    Instruction(8, BitSet(5, Reg(B))),
    Instruction(8, BitSet(5, Reg(C))),
    Instruction(8, BitSet(5, Reg(D))),
    Instruction(8, BitSet(5, Reg(E))),
    Instruction(8, BitSet(5, Reg(H))),
    Instruction(8, BitSet(5, Reg(L))),
    Instruction(16, BitSet(5, MemHL)),
    Instruction(8, BitSet(5, Reg(A)))]
  const EXT_ROW_15: seq<Instruction<ExtInstr>> := [
    Instruction(8, BitSet(6, Reg(B))),
    Instruction(8, BitSet(6, Reg(C))),
    Instruction(8, BitSet(6, Reg(D))),
    Instruction(8, BitSet(6, Reg(E))),
    Instruction(8, BitSet(6, Reg(H))),
    Instruction(8, BitSet(6, Reg(L))),
    Instruction(16, BitSet(6, MemHL)),
    Instruction(8, BitSet(6, Reg(A))),
    Instruction(8, BitSet(7, Reg(B))),
    Instruction(8, BitSet(7, Reg(C))),
    Instruction(8, BitSet(7, Reg(D))),
    Instruction(8, BitSet(7, Reg(E))),
    Instruction(8, BitSet(7, Reg(H))),
    Instruction(8, BitSet(7, Reg(L))),
    Instruction(16, BitSet(7, MemHL)),
    Instruction(8, BitSet(7, Reg(A)))]

  predicate IsOpcode(op: int)
  {
    0 <= op < 0x100
  }

  /** ins[op]. */
  function Ins(op: int): (i: Instruction<Instr>)
    requires IsOpcode(op)
  {
    INS[op / 16][op % 16]
  }

  /** ext_ins[op]. */
  function ExtIns(op: int): (i: Instruction<ExtInstr>)
    requires IsOpcode(op)
  {
    EXT_INS[op / 16][op % 16]
  }

  /** ins_words[op]. */
  function Words(op: int): (n: int)
    requires IsOpcode(op)
  {
    INS_WORDS[op / 16][op % 16]
  }

  /** The immediate bytes a handler reads after its opcode. */
  function OperandBytes(i: Instr): (n: int)
    ensures 0 <= n <= 2
  {
    match i
    case Ld(_, src) => if src == Imm then 1 else 0
    case Alu(_, src) => if src == Imm then 1 else 0
    case LdMemHlImm | LdhNA | LdhAN | LdHlSpN | AddSpN | Jr | JrCond(_) => 1
    case LdANn | LdNnA | Ld16(_) | LdNnSp | Jp | JpCond(_) | Call | CallCond(_) => 2
    case _ => 0
  }

  /** The operand order of every prefixed row. */
  const EXT_LOCS: seq<Loc> := [Reg(B), Reg(C), Reg(D), Reg(E), Reg(H), Reg(L), MemHL, Reg(A)]

  const SHIFTS: seq<ShiftOp> := [RlcN, RrcN, RlN, RrN, SlaN, SraN, SwapN, SrlN]

  /** The prefixed table by its layout: the low three bits choose the operand; each eighth from the top
    * is RLC, RRC, RL, RR, SLA, SRA, SWAP, SRL and then BIT, RES and SET with bit numbers 0 to 7; an
    * instruction on (HL) takes 16 cycles and one on a register 8. */
  function ExtDecode(op: int): (i: Instruction<ExtInstr>)
    requires IsOpcode(op)
    ensures i.cycles == (if op % 8 == 6 then 16 else 8) == (if i.operation.loc == MemHL then 16 else 8)
    ensures i.operation.BitTest? || i.operation.BitRes? || i.operation.BitSet? ==> 0 <= i.operation.bit < 8
  {
    var loc := EXT_LOCS[op % 8];
    var g := op / 8;
    Instruction(if loc == MemHL then 16 else 8,
      if g < 8 then Shift(SHIFTS[g], loc)
      else if g < 16 then BitTest(g - 8, loc)
      else if g < 24 then BitRes(g - 16, loc)
      else BitSet(g - 24, loc))
  }

  /** The prefixed table is exactly its layout. */
  lemma ExtTableLayout(op: int)
    requires IsOpcode(op)
    ensures ExtIns(op) == ExtDecode(op)
  {
    var row, col := op / 16, op % 16;
    assert op % 8 == col % 8 && op / 8 == 2 * row + col / 8;
    ExtRow(row, col);
  }

  lemma ExtRow(row: int, col: int)
    requires 0 <= row < 16 && 0 <= col < 16
    ensures EXT_INS[row][col] == ExtDecode(row * 16 + col)
  {
    if row < 2 {
      ExtRowGroup0(row, col);
    } else if row < 4 {
      ExtRowGroup1(row, col);
    } else if row < 6 {
      ExtRowGroup2(row, col);
    } else if row < 8 {
      ExtRowGroup3(row, col);
    } else if row < 10 {
      ExtRowGroup4(row, col);
    } else if row < 12 {
      ExtRowGroup5(row, col);
    } else if row < 14 {
      ExtRowGroup6(row, col);
    } else {
      ExtRowGroup7(row, col);
    }
  }

  /** Every instruction is one byte longer than the immediates its handler reads, except STOP and the
    * 0xCB prefix, which take two bytes. */
  lemma WordsMatchOperands(op: int)
    requires IsOpcode(op)
    ensures Words(op) == if op == 0x10 || op == 0xCB then 2 else 1 + OperandBytes(Ins(op).operation)
  {
    WordsRow(op / 16, op % 16);
  }

  lemma WordsRow(row: int, col: int)
    requires 0 <= row < 16 && 0 <= col < 16
    ensures var op := row * 16 + col;
            INS_WORDS[row][col] == if op == 0x10 || op == 0xCB then 2 else 1 + OperandBytes(INS[row][col].operation)
  {
    if row < 2 {
      WordsRowGroup0(row, col);
    } else if row < 4 {
      WordsRowGroup1(row, col);
    } else if row < 6 {
      WordsRowGroup2(row, col);
    } else if row < 8 {
      WordsRowGroup3(row, col);
    } else if row < 10 {
      WordsRowGroup4(row, col);
    } else if row < 12 {
      WordsRowGroup5(row, col);
    } else if row < 14 {
      WordsRowGroup6(row, col);
    } else {
      WordsRowGroup7(row, col);
    }
  }

  /** The table entry a conditional handler overwrites with its cycle count. */
  function CondIndex(i: Instr): (op: int)
    requires i.JpCond? || i.JrCond? || i.CallCond? || i.RetCond?
    ensures IsOpcode(op)
  {
    var k := match i.cc case NZ => 0 case Z => 8 case NC => 0x10 case CY => 0x18;
    match i
    case JpCond(_) => 0xC2 + k
    case JrCond(_) => 0x20 + k
    case CallCond(_) => 0xC4 + k
    case RetCond(_) => 0xC0 + k
  }

  /** Each conditional handler sits at the entry it overwrites, so the count read after it runs is
    * the one it chose. */
  lemma CondOwnEntry(op: int)
    requires IsOpcode(op)
    requires var i := Ins(op).operation; i.JpCond? || i.JrCond? || i.CallCond? || i.RetCond?
    ensures CondIndex(Ins(op).operation) == op
  {
    CondRow(op / 16, op % 16);
  }

  lemma CondRow(row: int, col: int)
    requires 0 <= row < 16 && 0 <= col < 16
    ensures var i := INS[row][col].operation; (i.JpCond? || i.JrCond? || i.CallCond? || i.RetCond?) ==> CondIndex(i) == row * 16 + col
  {
    if row < 2 {
      CondRowGroup0(row, col);
    } else if row < 4 {
      CondRowGroup1(row, col);
    } else if row < 6 {
      CondRowGroup2(row, col);
    } else if row < 8 {
      CondRowGroup3(row, col);
    } else if row < 10 {
      CondRowGroup4(row, col);
    } else if row < 12 {
      CondRowGroup5(row, col);
    } else if row < 14 {
      CondRowGroup6(row, col);
    } else {
      CondRowGroup7(row, col);
    }
  }

  /** DI, EI, RETI, HALT and STOP each have exactly one entry: 0xF3, 0xFB, 0xD9, 0x76 and 0x10; the
    * prefix byte 0xCB has no handler of its own in the main table. */
  predicate SingleEntries(i: Instr, op: int)
  {
    (i.Di? <==> op == 0xF3) && (i.Ei? <==> op == 0xFB) && (i.Reti? <==> op == 0xD9) && (i.Halt? <==> op == 0x76)
    && (i.Stop? <==> op == 0x10) && (op == 0xCB ==> i.Invalid?)
  }

  lemma SingleEntry(op: int)
    requires IsOpcode(op)
    ensures SingleEntries(Ins(op).operation, op)
  {
    SingleRow(op / 16, op % 16);
  }

  lemma SingleRow(row: int, col: int)
    requires 0 <= row < 16 && 0 <= col < 16
    ensures SingleEntries(INS[row][col].operation, row * 16 + col)
  {
    if row < 2 {
      SingleRowGroup0(row, col);
    } else if row < 4 {
      SingleRowGroup1(row, col);
    } else if row < 6 {
      SingleRowGroup2(row, col);
    } else if row < 8 {
      SingleRowGroup3(row, col);
    } else if row < 10 {
      SingleRowGroup4(row, col);
    } else if row < 12 {
      SingleRowGroup5(row, col);
    } else if row < 14 {
      SingleRowGroup6(row, col);
    } else {
      SingleRowGroup7(row, col);
    }
  }
  lemma ExtRow0(col: int)
    requires 0 <= col < 16
    ensures EXT_ROW_0[col] == ExtDecode(0 * 16 + col)
  {
    match col
    case 0 =>
    case 1 =>
    case 2 =>
    case 3 =>
    case 4 =>
    case 5 =>
    case 6 =>
    case 7 =>
    case 8 =>
    case 9 =>
    case 10 =>
    case 11 =>
    case 12 =>
    case 13 =>
    case 14 =>
    case 15 =>
  }

  lemma ExtRow1(col: int)
    requires 0 <= col < 16
    ensures EXT_ROW_1[col] == ExtDecode(1 * 16 + col)
  {
    match col
    case 0 =>
    case 1 =>
    case 2 =>
    case 3 =>
    case 4 =>
    case 5 =>
    case 6 =>
    case 7 =>
    case 8 =>
    case 9 =>
    case 10 =>
    case 11 =>
    case 12 =>
    case 13 =>
    case 14 =>
    case 15 =>
  }

  lemma ExtRow2(col: int)
    requires 0 <= col < 16
    ensures EXT_ROW_2[col] == ExtDecode(2 * 16 + col)
  {
    match col
    case 0 =>
    case 1 =>
    case 2 =>
    case 3 =>
    case 4 =>
    case 5 =>
    case 6 =>
    case 7 =>
    case 8 =>
    case 9 =>
    case 10 =>
    case 11 =>
    case 12 =>
    case 13 =>
    case 14 =>
    case 15 =>
  }

  lemma ExtRow3(col: int)
    requires 0 <= col < 16
    ensures EXT_ROW_3[col] == ExtDecode(3 * 16 + col)
  {
    match col
    case 0 =>
    case 1 =>
    case 2 =>
    case 3 =>
    case 4 =>
    case 5 =>
    case 6 =>
    case 7 =>
    case 8 =>
    case 9 =>
    case 10 =>
    case 11 =>
    case 12 =>
    case 13 =>
    case 14 =>
    case 15 =>
  }

  lemma ExtRow4(col: int)
    requires 0 <= col < 16
    ensures EXT_ROW_4[col] == ExtDecode(4 * 16 + col)
  {
    match col
    case 0 =>
    case 1 =>
    case 2 =>
    case 3 =>
    case 4 =>
    case 5 =>
    case 6 =>
    case 7 =>
    case 8 =>
    case 9 =>
    case 10 =>
    case 11 =>
    case 12 =>
    case 13 =>
    case 14 =>
    case 15 =>
  }

  lemma ExtRow5(col: int)
    requires 0 <= col < 16
    ensures EXT_ROW_5[col] == ExtDecode(5 * 16 + col)
  {
    match col
    case 0 =>
    case 1 =>
    case 2 =>
    case 3 =>
    case 4 =>
    case 5 =>
    case 6 =>
    case 7 =>
    case 8 =>
    case 9 =>
    case 10 =>
    case 11 =>
    case 12 =>
    case 13 =>
    case 14 =>
    case 15 =>
  }

  lemma ExtRow6(col: int)
    requires 0 <= col < 16
    ensures EXT_ROW_6[col] == ExtDecode(6 * 16 + col)
  {
    match col
    case 0 =>
    case 1 =>
    case 2 =>
    case 3 =>
    case 4 =>
    case 5 =>
    case 6 =>
    case 7 =>
    case 8 =>
    case 9 =>
    case 10 =>
    case 11 =>
    case 12 =>
    case 13 =>
    case 14 =>
    case 15 =>
  }

  lemma ExtRow7(col: int)
    requires 0 <= col < 16
    ensures EXT_ROW_7[col] == ExtDecode(7 * 16 + col)
  {
    match col
    case 0 =>
    case 1 =>
    case 2 =>
    case 3 =>
    case 4 =>
    case 5 =>
    case 6 =>
    case 7 =>
    case 8 =>
    case 9 =>
    case 10 =>
    case 11 =>
    case 12 =>
    case 13 =>
    case 14 =>
    case 15 =>
  }

  lemma ExtRow8(col: int)
    requires 0 <= col < 16
    ensures EXT_ROW_8[col] == ExtDecode(8 * 16 + col)
  {
    match col
    case 0 =>
    case 1 =>
    case 2 =>
    case 3 =>
    case 4 =>
    case 5 =>
    case 6 =>
    case 7 =>
    case 8 =>
    case 9 =>
    case 10 =>
    case 11 =>
    case 12 =>
    case 13 =>
    case 14 =>
    case 15 =>
  }

  lemma ExtRow9(col: int)
    requires 0 <= col < 16
    ensures EXT_ROW_9[col] == ExtDecode(9 * 16 + col)
  {
    match col
    case 0 =>
    case 1 =>
    case 2 =>
    case 3 =>
    case 4 =>
    case 5 =>
    case 6 =>
    case 7 =>
    case 8 =>
    case 9 =>
    case 10 =>
    case 11 =>
    case 12 =>
    case 13 =>
    case 14 =>
    case 15 =>
  }

  lemma ExtRow10(col: int)
    requires 0 <= col < 16
    ensures EXT_ROW_10[col] == ExtDecode(10 * 16 + col)
  {
    match col
    case 0 =>
    case 1 =>
    case 2 =>
    case 3 =>
    case 4 =>
    case 5 =>
    case 6 =>
    case 7 =>
    case 8 =>
    case 9 =>
    case 10 =>
    case 11 =>
    case 12 =>
    case 13 =>
    case 14 =>
    case 15 =>
  }

  lemma ExtRow11(col: int)
    requires 0 <= col < 16
    ensures EXT_ROW_11[col] == ExtDecode(11 * 16 + col)
  {
    match col
    case 0 =>
    case 1 =>
    case 2 =>
    case 3 =>
    case 4 =>
    case 5 =>
    case 6 =>
    case 7 =>
    case 8 =>
    case 9 =>
    case 10 =>
    case 11 =>
    case 12 =>
    case 13 =>
    case 14 =>
    case 15 =>
  }

  lemma ExtRow12(col: int)
    requires 0 <= col < 16
    ensures EXT_ROW_12[col] == ExtDecode(12 * 16 + col)
  {
    match col
    case 0 =>
    case 1 =>
    case 2 =>
    case 3 =>
    case 4 =>
    case 5 =>
    case 6 =>
    case 7 =>
    case 8 =>
    case 9 =>
    case 10 =>
    case 11 =>
    case 12 =>
    case 13 =>
    case 14 =>
    case 15 =>
  }

  lemma ExtRow13(col: int)
    requires 0 <= col < 16
    ensures EXT_ROW_13[col] == ExtDecode(13 * 16 + col)
  {
    match col
    case 0 =>
    case 1 =>
    case 2 =>
    case 3 =>
    case 4 =>
    case 5 =>
    case 6 =>
    case 7 =>
    case 8 =>
    case 9 =>
    case 10 =>
    case 11 =>
    case 12 =>
    case 13 =>
    case 14 =>
    case 15 =>
  }

  lemma ExtRow14(col: int)
    requires 0 <= col < 16
    ensures EXT_ROW_14[col] == ExtDecode(14 * 16 + col)
  {
    match col
    case 0 =>
    case 1 =>
    case 2 =>
    case 3 =>
    case 4 =>
    case 5 =>
    case 6 =>
    case 7 =>
    case 8 =>
    case 9 =>
    case 10 =>
    case 11 =>
    case 12 =>
    case 13 =>
    case 14 =>
    case 15 =>
  }

  lemma ExtRow15(col: int)
    requires 0 <= col < 16
    ensures EXT_ROW_15[col] == ExtDecode(15 * 16 + col)
  {
    match col
    case 0 =>
    case 1 =>
    case 2 =>
    case 3 =>
    case 4 =>
    case 5 =>
    case 6 =>
    case 7 =>
    case 8 =>
    case 9 =>
    case 10 =>
    case 11 =>
    case 12 =>
    case 13 =>
    case 14 =>
    case 15 =>
  }
  lemma WordsRow0(col: int)
    requires 0 <= col < 16
    ensures WORDS_ROW_0[col] == if 0 * 16 + col == 0x10 || 0 * 16 + col == 0xCB then 2 else 1 + OperandBytes(INS_ROW_0[col].operation)
  {
    match col
    case 0 =>
    case 1 =>
    case 2 =>
    case 3 =>
    case 4 =>
    case 5 =>
    case 6 =>
    case 7 =>
    case 8 =>
    case 9 =>
    case 10 =>
    case 11 =>
    case 12 =>
    case 13 =>
    case 14 =>
    case 15 =>
  }

  lemma WordsRow1(col: int)
    requires 0 <= col < 16
    ensures WORDS_ROW_1[col] == if 1 * 16 + col == 0x10 || 1 * 16 + col == 0xCB then 2 else 1 + OperandBytes(INS_ROW_1[col].operation)
  {
    match col
    case 0 =>
    case 1 =>
    case 2 =>
    case 3 =>
    case 4 =>
    case 5 =>
    case 6 =>
    case 7 =>
    case 8 =>
    case 9 =>
    case 10 =>
    case 11 =>
    case 12 =>
    case 13 =>
    case 14 =>
    case 15 =>
  }

  lemma WordsRow2(col: int)
    requires 0 <= col < 16
    ensures WORDS_ROW_2[col] == if 2 * 16 + col == 0x10 || 2 * 16 + col == 0xCB then 2 else 1 + OperandBytes(INS_ROW_2[col].operation)
  {
    match col
    case 0 =>
    case 1 =>
    case 2 =>
    case 3 =>
    case 4 =>
    case 5 =>
    case 6 =>
    case 7 =>
    case 8 =>
    case 9 =>
    case 10 =>
    case 11 =>
    case 12 =>
    case 13 =>
    case 14 =>
    case 15 =>
  }

  lemma WordsRow3(col: int)
    requires 0 <= col < 16
    ensures WORDS_ROW_3[col] == if 3 * 16 + col == 0x10 || 3 * 16 + col == 0xCB then 2 else 1 + OperandBytes(INS_ROW_3[col].operation)
  {
    match col
    case 0 =>
    case 1 =>
    case 2 =>
    case 3 =>
    case 4 =>
    case 5 =>
    case 6 =>
    case 7 =>
    case 8 =>
    case 9 =>
    case 10 =>
    case 11 =>
    case 12 =>
    case 13 =>
    case 14 =>
    case 15 =>
  }

  lemma WordsRow4(col: int)
    requires 0 <= col < 16
    ensures WORDS_ROW_4[col] == if 4 * 16 + col == 0x10 || 4 * 16 + col == 0xCB then 2 else 1 + OperandBytes(INS_ROW_4[col].operation)
  {
    match col
    case 0 =>
    case 1 =>
    case 2 =>
    case 3 =>
    case 4 =>
    case 5 =>
    case 6 =>
    case 7 =>
    case 8 =>
    case 9 =>
    case 10 =>
    case 11 =>
    case 12 =>
    case 13 =>
    case 14 =>
    case 15 =>
  }

  lemma WordsRow5(col: int)
    requires 0 <= col < 16
    ensures WORDS_ROW_5[col] == if 5 * 16 + col == 0x10 || 5 * 16 + col == 0xCB then 2 else 1 + OperandBytes(INS_ROW_5[col].operation)
  {
    match col
    case 0 =>
    case 1 =>
    case 2 =>
    case 3 =>
    case 4 =>
    case 5 =>
    case 6 =>
    case 7 =>
    case 8 =>
    case 9 =>
    case 10 =>
    case 11 =>
    case 12 =>
    case 13 =>
    case 14 =>
    case 15 =>
  }

  lemma WordsRow6(col: int)
    requires 0 <= col < 16
    ensures WORDS_ROW_6[col] == if 6 * 16 + col == 0x10 || 6 * 16 + col == 0xCB then 2 else 1 + OperandBytes(INS_ROW_6[col].operation)
  {
    match col
    case 0 =>
    case 1 =>
    case 2 =>
    case 3 =>
    case 4 =>
    case 5 =>
    case 6 =>
    case 7 =>
    case 8 =>
    case 9 =>
    case 10 =>
    case 11 =>
    case 12 =>
    case 13 =>
    case 14 =>
    case 15 =>
  }

  lemma WordsRow7(col: int)
    requires 0 <= col < 16
    ensures WORDS_ROW_7[col] == if 7 * 16 + col == 0x10 || 7 * 16 + col == 0xCB then 2 else 1 + OperandBytes(INS_ROW_7[col].operation)
  {
    match col
    case 0 =>
    case 1 =>
    case 2 =>
    case 3 =>
    case 4 =>
    case 5 =>
    case 6 =>
    case 7 =>
    case 8 =>
    case 9 =>
    case 10 =>
    case 11 =>
    case 12 =>
    case 13 =>
    case 14 =>
    case 15 =>
  }

  lemma WordsRow8(col: int)
    requires 0 <= col < 16
    ensures WORDS_ROW_8[col] == if 8 * 16 + col == 0x10 || 8 * 16 + col == 0xCB then 2 else 1 + OperandBytes(INS_ROW_8[col].operation)
  {
    match col
    case 0 =>
    case 1 =>
    case 2 =>
    case 3 =>
    case 4 =>
    case 5 =>
    case 6 =>
    case 7 =>
    case 8 =>
    case 9 =>
    case 10 =>
    case 11 =>
    case 12 =>
    case 13 =>
    case 14 =>
    case 15 =>
  }

  lemma WordsRow9(col: int)
    requires 0 <= col < 16
    ensures WORDS_ROW_9[col] == if 9 * 16 + col == 0x10 || 9 * 16 + col == 0xCB then 2 else 1 + OperandBytes(INS_ROW_9[col].operation)
  {
    match col
    case 0 =>
    case 1 =>
    case 2 =>
    case 3 =>
    case 4 =>
    case 5 =>
    case 6 =>
    case 7 =>
    case 8 =>
    case 9 =>
    case 10 =>
    case 11 =>
    case 12 =>
    case 13 =>
    case 14 =>
    case 15 =>
  }

  lemma WordsRow10(col: int)
    requires 0 <= col < 16
    ensures WORDS_ROW_10[col] == if 10 * 16 + col == 0x10 || 10 * 16 + col == 0xCB then 2 else 1 + OperandBytes(INS_ROW_10[col].operation)
  {
    match col
    case 0 =>
    case 1 =>
    case 2 =>
    case 3 =>
    case 4 =>
    case 5 =>
    case 6 =>
    case 7 =>
    case 8 =>
    case 9 =>
    case 10 =>
    case 11 =>
    case 12 =>
    case 13 =>
    case 14 =>
    case 15 =>
  }

  lemma WordsRow11(col: int)
    requires 0 <= col < 16
    ensures WORDS_ROW_11[col] == if 11 * 16 + col == 0x10 || 11 * 16 + col == 0xCB then 2 else 1 + OperandBytes(INS_ROW_11[col].operation)
  {
    match col
    case 0 =>
    case 1 =>
    case 2 =>
    case 3 =>
    case 4 =>
    case 5 =>
    case 6 =>
    case 7 =>
    case 8 =>
    case 9 =>
    case 10 =>
    case 11 =>
    case 12 =>
    case 13 =>
    case 14 =>
    case 15 =>
  }

  lemma WordsRow12(col: int)
    requires 0 <= col < 16
    ensures WORDS_ROW_12[col] == if 12 * 16 + col == 0x10 || 12 * 16 + col == 0xCB then 2 else 1 + OperandBytes(INS_ROW_12[col].operation)
  {
    match col
    case 0 =>
    case 1 =>
    case 2 =>
    case 3 =>
    case 4 =>
    case 5 =>
    case 6 =>
    case 7 =>
    case 8 =>
    case 9 =>
    case 10 =>
    case 11 =>
    case 12 =>
    case 13 =>
    case 14 =>
    case 15 =>
  }

  lemma WordsRow13(col: int)
    requires 0 <= col < 16
    ensures WORDS_ROW_13[col] == if 13 * 16 + col == 0x10 || 13 * 16 + col == 0xCB then 2 else 1 + OperandBytes(INS_ROW_13[col].operation)
  {
    match col
    case 0 =>
    case 1 =>
    case 2 =>
    case 3 =>
    case 4 =>
    case 5 =>
    case 6 =>
    case 7 =>
    case 8 =>
    case 9 =>
    case 10 =>
    case 11 =>
    case 12 =>
    case 13 =>
    case 14 =>
    case 15 =>
  }

  lemma WordsRow14(col: int)
    requires 0 <= col < 16
    ensures WORDS_ROW_14[col] == if 14 * 16 + col == 0x10 || 14 * 16 + col == 0xCB then 2 else 1 + OperandBytes(INS_ROW_14[col].operation)
  {
    match col
    case 0 =>
    case 1 =>
    case 2 =>
    case 3 =>
    case 4 =>
    case 5 =>
    case 6 =>
    case 7 =>
    case 8 =>
    case 9 =>
    case 10 =>
    case 11 =>
    case 12 =>
    case 13 =>
    case 14 =>
    case 15 =>
  }

  lemma WordsRow15(col: int)
    requires 0 <= col < 16
    ensures WORDS_ROW_15[col] == if 15 * 16 + col == 0x10 || 15 * 16 + col == 0xCB then 2 else 1 + OperandBytes(INS_ROW_15[col].operation)
  {
    match col
    case 0 =>
    case 1 =>
    case 2 =>
    case 3 =>
    case 4 =>
    case 5 =>
    case 6 =>
    case 7 =>
    case 8 =>
    case 9 =>
    case 10 =>
    case 11 =>
    case 12 =>
    case 13 =>
    case 14 =>
    case 15 =>
  }
  lemma CondRow0(col: int)
    requires 0 <= col < 16
    ensures var i := INS_ROW_0[col].operation; (i.JpCond? || i.JrCond? || i.CallCond? || i.RetCond?) ==> CondIndex(i) == 0 * 16 + col
  {
    match col
    case 0 =>
    case 1 =>
    case 2 =>
    case 3 =>
    case 4 =>
    case 5 =>
    case 6 =>
    case 7 =>
    case 8 =>
    case 9 =>
    case 10 =>
    case 11 =>
    case 12 =>
    case 13 =>
    case 14 =>
    case 15 =>
  }

  lemma CondRow1(col: int)
    requires 0 <= col < 16
    ensures var i := INS_ROW_1[col].operation; (i.JpCond? || i.JrCond? || i.CallCond? || i.RetCond?) ==> CondIndex(i) == 1 * 16 + col
  {
    match col
    case 0 =>
    case 1 =>
    case 2 =>
    case 3 =>
    case 4 =>
    case 5 =>
    case 6 =>
    case 7 =>
    case 8 =>
    case 9 =>
    case 10 =>
    case 11 =>
    case 12 =>
    case 13 =>
    case 14 =>
    case 15 =>
  }

  lemma CondRow2(col: int)
    requires 0 <= col < 16
    ensures var i := INS_ROW_2[col].operation; (i.JpCond? || i.JrCond? || i.CallCond? || i.RetCond?) ==> CondIndex(i) == 2 * 16 + col
  {
    match col
    case 0 =>
    case 1 =>
    case 2 =>
    case 3 =>
    case 4 =>
    case 5 =>
    case 6 =>
    case 7 =>
    case 8 =>
    case 9 =>
    case 10 =>
    case 11 =>
    case 12 =>
    case 13 =>
    case 14 =>
    case 15 =>
  }

  lemma CondRow3(col: int)
    requires 0 <= col < 16
    ensures var i := INS_ROW_3[col].operation; (i.JpCond? || i.JrCond? || i.CallCond? || i.RetCond?) ==> CondIndex(i) == 3 * 16 + col
  {
    match col
    case 0 =>
    case 1 =>
    case 2 =>
    case 3 =>
    case 4 =>
    case 5 =>
    case 6 =>
    case 7 =>
    case 8 =>
    case 9 =>
    case 10 =>
    case 11 =>
    case 12 =>
    case 13 =>
    case 14 =>
    case 15 =>
  }

  lemma CondRow4(col: int)
    requires 0 <= col < 16
    ensures var i := INS_ROW_4[col].operation; (i.JpCond? || i.JrCond? || i.CallCond? || i.RetCond?) ==> CondIndex(i) == 4 * 16 + col
  {
    match col
    case 0 =>
    case 1 =>
    case 2 =>
    case 3 =>
    case 4 =>
    case 5 =>
    case 6 =>
    case 7 =>
    case 8 =>
    case 9 =>
    case 10 =>
    case 11 =>
    case 12 =>
    case 13 =>
    case 14 =>
    case 15 =>
  }

  lemma CondRow5(col: int)
    requires 0 <= col < 16
    ensures var i := INS_ROW_5[col].operation; (i.JpCond? || i.JrCond? || i.CallCond? || i.RetCond?) ==> CondIndex(i) == 5 * 16 + col
  {
    match col
    case 0 =>
    case 1 =>
    case 2 =>
    case 3 =>
    case 4 =>
    case 5 =>
    case 6 =>
    case 7 =>
    case 8 =>
    case 9 =>
    case 10 =>
    case 11 =>
    case 12 =>
    case 13 =>
    case 14 =>
    case 15 =>
  }

  lemma CondRow6(col: int)
    requires 0 <= col < 16
    ensures var i := INS_ROW_6[col].operation; (i.JpCond? || i.JrCond? || i.CallCond? || i.RetCond?) ==> CondIndex(i) == 6 * 16 + col
  {
    match col
    case 0 =>
    case 1 =>
    case 2 =>
    case 3 =>
    case 4 =>
    case 5 =>
    case 6 =>
    case 7 =>
    case 8 =>
    case 9 =>
    case 10 =>
    case 11 =>
    case 12 =>
    case 13 =>
    case 14 =>
    case 15 =>
  }

  lemma CondRow7(col: int)
    requires 0 <= col < 16
    ensures var i := INS_ROW_7[col].operation; (i.JpCond? || i.JrCond? || i.CallCond? || i.RetCond?) ==> CondIndex(i) == 7 * 16 + col
  {
    match col
    case 0 =>
    case 1 =>
    case 2 =>
    case 3 =>
    case 4 =>
    case 5 =>
    case 6 =>
    case 7 =>
    case 8 =>
    case 9 =>
    case 10 =>
    case 11 =>
    case 12 =>
    case 13 =>
    case 14 =>
    case 15 =>
  }

  lemma CondRow8(col: int)
    requires 0 <= col < 16
    ensures var i := INS_ROW_8[col].operation; (i.JpCond? || i.JrCond? || i.CallCond? || i.RetCond?) ==> CondIndex(i) == 8 * 16 + col
  {
    match col
    case 0 =>
    case 1 =>
    case 2 =>
    case 3 =>
    case 4 =>
    case 5 =>
    case 6 =>
    case 7 =>
    case 8 =>
    case 9 =>
    case 10 =>
    case 11 =>
    case 12 =>
    case 13 =>
    case 14 =>
    case 15 =>
  }

  lemma CondRow9(col: int)
    requires 0 <= col < 16
    ensures var i := INS_ROW_9[col].operation; (i.JpCond? || i.JrCond? || i.CallCond? || i.RetCond?) ==> CondIndex(i) == 9 * 16 + col
  {
    match col
    case 0 =>
    case 1 =>
    case 2 =>
    case 3 =>
    case 4 =>
    case 5 =>
    case 6 =>
    case 7 =>
    case 8 =>
    case 9 =>
    case 10 =>
    case 11 =>
    case 12 =>
    case 13 =>
    case 14 =>
    case 15 =>
  }

  lemma CondRow10(col: int)
    requires 0 <= col < 16
    ensures var i := INS_ROW_10[col].operation; (i.JpCond? || i.JrCond? || i.CallCond? || i.RetCond?) ==> CondIndex(i) == 10 * 16 + col
  {
    match col
    case 0 =>
    case 1 =>
    case 2 =>
    case 3 =>
    case 4 =>
    case 5 =>
    case 6 =>
    case 7 =>
    case 8 =>
    case 9 =>
    case 10 =>
    case 11 =>
    case 12 =>
    case 13 =>
    case 14 =>
    case 15 =>
  }

  lemma CondRow11(col: int)
    requires 0 <= col < 16
    ensures var i := INS_ROW_11[col].operation; (i.JpCond? || i.JrCond? || i.CallCond? || i.RetCond?) ==> CondIndex(i) == 11 * 16 + col
  {
    match col
    case 0 =>
    case 1 =>
    case 2 =>
    case 3 =>
    case 4 =>
    case 5 =>
    case 6 =>
    case 7 =>
    case 8 =>
    case 9 =>
    case 10 =>
    case 11 =>
    case 12 =>
    case 13 =>
    case 14 =>
    case 15 =>
  }

  lemma CondRow12(col: int)
    requires 0 <= col < 16
    ensures var i := INS_ROW_12[col].operation; (i.JpCond? || i.JrCond? || i.CallCond? || i.RetCond?) ==> CondIndex(i) == 12 * 16 + col
  {
    match col
    case 0 =>
    case 1 =>
    case 2 =>
    case 3 =>
    case 4 =>
    case 5 =>
    case 6 =>
    case 7 =>
    case 8 =>
    case 9 =>
    case 10 =>
    case 11 =>
    case 12 =>
    case 13 =>
    case 14 =>
    case 15 =>
  }

  lemma CondRow13(col: int)
    requires 0 <= col < 16
    ensures var i := INS_ROW_13[col].operation; (i.JpCond? || i.JrCond? || i.CallCond? || i.RetCond?) ==> CondIndex(i) == 13 * 16 + col
  {
    match col
    case 0 =>
    case 1 =>
    case 2 =>
    case 3 =>
    case 4 =>
    case 5 =>
    case 6 =>
    case 7 =>
    case 8 =>
    case 9 =>
    case 10 =>
    case 11 =>
    case 12 =>
    case 13 =>
    case 14 =>
    case 15 =>
  }

  lemma CondRow14(col: int)
    requires 0 <= col < 16
    ensures var i := INS_ROW_14[col].operation; (i.JpCond? || i.JrCond? || i.CallCond? || i.RetCond?) ==> CondIndex(i) == 14 * 16 + col
  {
    match col
    case 0 =>
    case 1 =>
    case 2 =>
    case 3 =>
    case 4 =>
    case 5 =>
    case 6 =>
    case 7 =>
    case 8 =>
    case 9 =>
    case 10 =>
    case 11 =>
    case 12 =>
    case 13 =>
    case 14 =>
    case 15 =>
  }

  lemma CondRow15(col: int)
    requires 0 <= col < 16
    ensures var i := INS_ROW_15[col].operation; (i.JpCond? || i.JrCond? || i.CallCond? || i.RetCond?) ==> CondIndex(i) == 15 * 16 + col
  {
    match col
    case 0 =>
    case 1 =>
    case 2 =>
    case 3 =>
    case 4 =>
    case 5 =>
    case 6 =>
    case 7 =>
    case 8 =>
    case 9 =>
    case 10 =>
    case 11 =>
    case 12 =>
    case 13 =>
    case 14 =>
    case 15 =>
  }
  lemma SingleRow0(col: int)
    requires 0 <= col < 16
    ensures SingleEntries(INS_ROW_0[col].operation, 0 * 16 + col)
  {
    match col
    case 0 =>
    case 1 =>
    case 2 =>
    case 3 =>
    case 4 =>
    case 5 =>
    case 6 =>
    case 7 =>
    case 8 =>
    case 9 =>
    case 10 =>
    case 11 =>
    case 12 =>
    case 13 =>
    case 14 =>
    case 15 =>
  }

  lemma SingleRow1(col: int)
    requires 0 <= col < 16
    ensures SingleEntries(INS_ROW_1[col].operation, 1 * 16 + col)
  {
    match col
    case 0 =>
    case 1 =>
    case 2 =>
    case 3 =>
    case 4 =>
    case 5 =>
    case 6 =>
    case 7 =>
    case 8 =>
    case 9 =>
    case 10 =>
    case 11 =>
    case 12 =>
    case 13 =>
    case 14 =>
    case 15 =>
  }

  lemma SingleRow2(col: int)
    requires 0 <= col < 16
    ensures SingleEntries(INS_ROW_2[col].operation, 2 * 16 + col)
  {
    match col
    case 0 =>
    case 1 =>
    case 2 =>
    case 3 =>
    case 4 =>
    case 5 =>
    case 6 =>
    case 7 =>
    case 8 =>
    case 9 =>
    case 10 =>
    case 11 =>
    case 12 =>
    case 13 =>
    case 14 =>
    case 15 =>
  }

  lemma SingleRow3(col: int)
    requires 0 <= col < 16
    ensures SingleEntries(INS_ROW_3[col].operation, 3 * 16 + col)
  {
    match col
    case 0 =>
    case 1 =>
    case 2 =>
    case 3 =>
    case 4 =>
    case 5 =>
    case 6 =>
    case 7 =>
    case 8 =>
    case 9 =>
    case 10 =>
    case 11 =>
    case 12 =>
    case 13 =>
    case 14 =>
    case 15 =>
  }

  lemma SingleRow4(col: int)
    requires 0 <= col < 16
    ensures SingleEntries(INS_ROW_4[col].operation, 4 * 16 + col)
  {
    match col
    case 0 =>
    case 1 =>
    case 2 =>
    case 3 =>
    case 4 =>
    case 5 =>
    case 6 =>
    case 7 =>
    case 8 =>
    case 9 =>
    case 10 =>
    case 11 =>
    case 12 =>
    case 13 =>
    case 14 =>
    case 15 =>
  }

  lemma SingleRow5(col: int)
    requires 0 <= col < 16
    ensures SingleEntries(INS_ROW_5[col].operation, 5 * 16 + col)
  {
    match col
    case 0 =>
    case 1 =>
    case 2 =>
    case 3 =>
    case 4 =>
    case 5 =>
    case 6 =>
    case 7 =>
    case 8 =>
    case 9 =>
    case 10 =>
    case 11 =>
    case 12 =>
    case 13 =>
    case 14 =>
    case 15 =>
  }

  lemma SingleRow6(col: int)
    requires 0 <= col < 16
    ensures SingleEntries(INS_ROW_6[col].operation, 6 * 16 + col)
  {
    match col
    case 0 =>
    case 1 =>
    case 2 =>
    case 3 =>
    case 4 =>
    case 5 =>
    case 6 =>
    case 7 =>
    case 8 =>
    case 9 =>
    case 10 =>
    case 11 =>
    case 12 =>
    case 13 =>
    case 14 =>
    case 15 =>
  }

  lemma SingleRow7(col: int)
    requires 0 <= col < 16
    ensures SingleEntries(INS_ROW_7[col].operation, 7 * 16 + col)
  {
    match col
    case 0 =>
    case 1 =>
    case 2 =>
    case 3 =>
    case 4 =>
    case 5 =>
    case 6 =>
    case 7 =>
    case 8 =>
    case 9 =>
    case 10 =>
    case 11 =>
    case 12 =>
    case 13 =>
    case 14 =>
    case 15 =>
  }

  lemma SingleRow8(col: int)
    requires 0 <= col < 16
    ensures SingleEntries(INS_ROW_8[col].operation, 8 * 16 + col)
  {
    match col
    case 0 =>
    case 1 =>
    case 2 =>
    case 3 =>
    case 4 =>
    case 5 =>
    case 6 =>
    case 7 =>
    case 8 =>
    case 9 =>
    case 10 =>
    case 11 =>
    case 12 =>
    case 13 =>
    case 14 =>
    case 15 =>
  }

  lemma SingleRow9(col: int)
    requires 0 <= col < 16
    ensures SingleEntries(INS_ROW_9[col].operation, 9 * 16 + col)
  {
    match col
    case 0 =>
    case 1 =>
    case 2 =>
    case 3 =>
    case 4 =>
    case 5 =>
    case 6 =>
    case 7 =>
    case 8 =>
    case 9 =>
    case 10 =>
    case 11 =>
    case 12 =>
    case 13 =>
    case 14 =>
    case 15 =>
  }

  lemma SingleRow10(col: int)
    requires 0 <= col < 16
    ensures SingleEntries(INS_ROW_10[col].operation, 10 * 16 + col)
  {
    match col
    case 0 =>
    case 1 =>
    case 2 =>
    case 3 =>
    case 4 =>
    case 5 =>
    case 6 =>
    case 7 =>
    case 8 =>
    case 9 =>
    case 10 =>
    case 11 =>
    case 12 =>
    case 13 =>
    case 14 =>
    case 15 =>
  }

  lemma SingleRow11(col: int)
    requires 0 <= col < 16
    ensures SingleEntries(INS_ROW_11[col].operation, 11 * 16 + col)
  {
    match col
    case 0 =>
    case 1 =>
    case 2 =>
    case 3 =>
    case 4 =>
    case 5 =>
    case 6 =>
    case 7 =>
    case 8 =>
    case 9 =>
    case 10 =>
    case 11 =>
    case 12 =>
    case 13 =>
    case 14 =>
    case 15 =>
  }

  lemma SingleRow12(col: int)
    requires 0 <= col < 16
    ensures SingleEntries(INS_ROW_12[col].operation, 12 * 16 + col)
  {
    match col
    case 0 =>
    case 1 =>
    case 2 =>
    case 3 =>
    case 4 =>
    case 5 =>
    case 6 =>
    case 7 =>
    case 8 =>
    case 9 =>
    case 10 =>
    case 11 =>
    case 12 =>
    case 13 =>
    case 14 =>
    case 15 =>
  }

  lemma SingleRow13(col: int)
    requires 0 <= col < 16
    ensures SingleEntries(INS_ROW_13[col].operation, 13 * 16 + col)
  {
    match col
    case 0 =>
    case 1 =>
    case 2 =>
    case 3 =>
    case 4 =>
    case 5 =>
    case 6 =>
    case 7 =>
    case 8 =>
    case 9 =>
    case 10 =>
    case 11 =>
    case 12 =>
    case 13 =>
    case 14 =>
    case 15 =>
  }

  lemma SingleRow14(col: int)
    requires 0 <= col < 16
    ensures SingleEntries(INS_ROW_14[col].operation, 14 * 16 + col)
  {
    match col
    case 0 =>
    case 1 =>
    case 2 =>
    case 3 =>
    case 4 =>
    case 5 =>
    case 6 =>
    case 7 =>
    case 8 =>
    case 9 =>
    case 10 =>
    case 11 =>
    case 12 =>
    case 13 =>
    case 14 =>
    case 15 =>
  }

  lemma SingleRow15(col: int)
    requires 0 <= col < 16
    ensures SingleEntries(INS_ROW_15[col].operation, 15 * 16 + col)
  {
    match col
    case 0 =>
    case 1 =>
    case 2 =>
    case 3 =>
    case 4 =>
    case 5 =>
    case 6 =>
    case 7 =>
    case 8 =>
    case 9 =>
    case 10 =>
    case 11 =>
    case 12 =>
    case 13 =>
    case 14 =>
    case 15 =>
  }
  lemma SingleRowGroup0(row: int, col: int)
    requires 0 <= row < 2 && 0 <= col < 16
    ensures SingleEntries(INS[row][col].operation, row * 16 + col)
  {
    if row == 0 {
      SingleRow0(col);
    } else {
      SingleRow1(col);
    }
  }

  lemma SingleRowGroup1(row: int, col: int)
    requires 2 <= row < 4 && 0 <= col < 16
    ensures SingleEntries(INS[row][col].operation, row * 16 + col)
  {
    if row == 2 {
      SingleRow2(col);
    } else {
      SingleRow3(col);
    }
  }

  lemma SingleRowGroup2(row: int, col: int)
    requires 4 <= row < 6 && 0 <= col < 16
    ensures SingleEntries(INS[row][col].operation, row * 16 + col)
  {
    if row == 4 {
      SingleRow4(col);
    } else {
      SingleRow5(col);
    }
  }

  lemma SingleRowGroup3(row: int, col: int)
    requires 6 <= row < 8 && 0 <= col < 16
    ensures SingleEntries(INS[row][col].operation, row * 16 + col)
  {
    if row == 6 {
      SingleRow6(col);
    } else {
      SingleRow7(col);
    }
  }

  lemma SingleRowGroup4(row: int, col: int)
    requires 8 <= row < 10 && 0 <= col < 16
    ensures SingleEntries(INS[row][col].operation, row * 16 + col)
  {
    if row == 8 {
      SingleRow8(col);
    } else {
      SingleRow9(col);
    }
  }

  lemma SingleRowGroup5(row: int, col: int)
    requires 10 <= row < 12 && 0 <= col < 16
    ensures SingleEntries(INS[row][col].operation, row * 16 + col)
  {
    if row == 10 {
      SingleRow10(col);
    } else {
      SingleRow11(col);
    }
  }

  lemma SingleRowGroup6(row: int, col: int)
    requires 12 <= row < 14 && 0 <= col < 16
    ensures SingleEntries(INS[row][col].operation, row * 16 + col)
  {
    if row == 12 {
      SingleRow12(col);
    } else {
      SingleRow13(col);
    }
  }

  lemma SingleRowGroup7(row: int, col: int)
    requires 14 <= row < 16 && 0 <= col < 16
    ensures SingleEntries(INS[row][col].operation, row * 16 + col)
  {
    if row == 14 {
      SingleRow14(col);
    } else {
      SingleRow15(col);
    }
  }
  lemma ExtRowGroup0(row: int, col: int)
    requires 0 <= row < 2 && 0 <= col < 16
    ensures EXT_INS[row][col] == ExtDecode(row * 16 + col)
  {
    if row == 0 {
      ExtRow0(col);
    } else {
      ExtRow1(col);
    }
  }

  lemma ExtRowGroup1(row: int, col: int)
    requires 2 <= row < 4 && 0 <= col < 16
    ensures EXT_INS[row][col] == ExtDecode(row * 16 + col)
  {
    if row == 2 {
      ExtRow2(col);
    } else {
      ExtRow3(col);
    }
  }

  lemma ExtRowGroup2(row: int, col: int)
    requires 4 <= row < 6 && 0 <= col < 16
    ensures EXT_INS[row][col] == ExtDecode(row * 16 + col)
  {
    if row == 4 {
      ExtRow4(col);
    } else {
      ExtRow5(col);
    }
  }

  lemma ExtRowGroup3(row: int, col: int)
    requires 6 <= row < 8 && 0 <= col < 16
    ensures EXT_INS[row][col] == ExtDecode(row * 16 + col)
  {
    if row == 6 {
      ExtRow6(col);
    } else {
      ExtRow7(col);
    }
  }

  lemma ExtRowGroup4(row: int, col: int)
    requires 8 <= row < 10 && 0 <= col < 16
    ensures EXT_INS[row][col] == ExtDecode(row * 16 + col)
  {
    if row == 8 {
      ExtRow8(col);
    } else {
      ExtRow9(col);
    }
  }

  lemma ExtRowGroup5(row: int, col: int)
    requires 10 <= row < 12 && 0 <= col < 16
    ensures EXT_INS[row][col] == ExtDecode(row * 16 + col)
  {
    if row == 10 {
      ExtRow10(col);
    } else {
      ExtRow11(col);
    }
  }

  lemma ExtRowGroup6(row: int, col: int)
    requires 12 <= row < 14 && 0 <= col < 16
    ensures EXT_INS[row][col] == ExtDecode(row * 16 + col)
  {
    if row == 12 {
      ExtRow12(col);
    } else {
      ExtRow13(col);
    }
  }

  lemma ExtRowGroup7(row: int, col: int)
    requires 14 <= row < 16 && 0 <= col < 16
    ensures EXT_INS[row][col] == ExtDecode(row * 16 + col)
  {
    if row == 14 {
      ExtRow14(col);
    } else {
      ExtRow15(col);
    }
  }
  lemma WordsRowGroup0(row: int, col: int)
    requires 0 <= row < 2 && 0 <= col < 16
    ensures var op := row * 16 + col; INS_WORDS[row][col] == if op == 0x10 || op == 0xCB then 2 else 1 + OperandBytes(INS[row][col].operation)
  {
    if row == 0 {
      WordsRow0(col);
    } else {
      WordsRow1(col);
    }
  }

  lemma WordsRowGroup1(row: int, col: int)
    requires 2 <= row < 4 && 0 <= col < 16
    ensures var op := row * 16 + col; INS_WORDS[row][col] == if op == 0x10 || op == 0xCB then 2 else 1 + OperandBytes(INS[row][col].operation)
  {
    if row == 2 {
      WordsRow2(col);
    } else {
      WordsRow3(col);
    }
  }

  lemma WordsRowGroup2(row: int, col: int)
    requires 4 <= row < 6 && 0 <= col < 16
    ensures var op := row * 16 + col; INS_WORDS[row][col] == if op == 0x10 || op == 0xCB then 2 else 1 + OperandBytes(INS[row][col].operation)
  {
    if row == 4 {
      WordsRow4(col);
    } else {
      WordsRow5(col);
    }
  }

  lemma WordsRowGroup3(row: int, col: int)
    requires 6 <= row < 8 && 0 <= col < 16
    ensures var op := row * 16 + col; INS_WORDS[row][col] == if op == 0x10 || op == 0xCB then 2 else 1 + OperandBytes(INS[row][col].operation)
  {
    if row == 6 {
      WordsRow6(col);
    } else {
      WordsRow7(col);
    }
  }

  lemma WordsRowGroup4(row: int, col: int)
    requires 8 <= row < 10 && 0 <= col < 16
    ensures var op := row * 16 + col; INS_WORDS[row][col] == if op == 0x10 || op == 0xCB then 2 else 1 + OperandBytes(INS[row][col].operation)
  {
    if row == 8 {
      WordsRow8(col);
    } else {
      WordsRow9(col);
    }
  }

  lemma WordsRowGroup5(row: int, col: int)
    requires 10 <= row < 12 && 0 <= col < 16
    ensures var op := row * 16 + col; INS_WORDS[row][col] == if op == 0x10 || op == 0xCB then 2 else 1 + OperandBytes(INS[row][col].operation)
  {
    if row == 10 {
      WordsRow10(col);
    } else {
      WordsRow11(col);
    }
  }

  lemma WordsRowGroup6(row: int, col: int)
    requires 12 <= row < 14 && 0 <= col < 16
    ensures var op := row * 16 + col; INS_WORDS[row][col] == if op == 0x10 || op == 0xCB then 2 else 1 + OperandBytes(INS[row][col].operation)
  {
    if row == 12 {
      WordsRow12(col);
    } else {
      WordsRow13(col);
    }
  }

  lemma WordsRowGroup7(row: int, col: int)
    requires 14 <= row < 16 && 0 <= col < 16
    ensures var op := row * 16 + col; INS_WORDS[row][col] == if op == 0x10 || op == 0xCB then 2 else 1 + OperandBytes(INS[row][col].operation)
  {
    if row == 14 {
      WordsRow14(col);
    } else {
      WordsRow15(col);
    }
  }
  lemma CondRowGroup0(row: int, col: int)
    requires 0 <= row < 2 && 0 <= col < 16
    ensures var i := INS[row][col].operation; (i.JpCond? || i.JrCond? || i.CallCond? || i.RetCond?) ==> CondIndex(i) == row * 16 + col
  {
    if row == 0 {
      CondRow0(col);
    } else {
      CondRow1(col);
    }
  }

  lemma CondRowGroup1(row: int, col: int)
    requires 2 <= row < 4 && 0 <= col < 16
    ensures var i := INS[row][col].operation; (i.JpCond? || i.JrCond? || i.CallCond? || i.RetCond?) ==> CondIndex(i) == row * 16 + col
  {
    if row == 2 {
      CondRow2(col);
    } else {
      CondRow3(col);
    }
  }

  lemma CondRowGroup2(row: int, col: int)
    requires 4 <= row < 6 && 0 <= col < 16
    ensures var i := INS[row][col].operation; (i.JpCond? || i.JrCond? || i.CallCond? || i.RetCond?) ==> CondIndex(i) == row * 16 + col
  {
    if row == 4 {
      CondRow4(col);
    } else {
      CondRow5(col);
    }
  }

  lemma CondRowGroup3(row: int, col: int)
    requires 6 <= row < 8 && 0 <= col < 16
    ensures var i := INS[row][col].operation; (i.JpCond? || i.JrCond? || i.CallCond? || i.RetCond?) ==> CondIndex(i) == row * 16 + col
  {
    if row == 6 {
      CondRow6(col);
    } else {
      CondRow7(col);
    }
  }

  lemma CondRowGroup4(row: int, col: int)
    requires 8 <= row < 10 && 0 <= col < 16
    ensures var i := INS[row][col].operation; (i.JpCond? || i.JrCond? || i.CallCond? || i.RetCond?) ==> CondIndex(i) == row * 16 + col
  {
    if row == 8 {
      CondRow8(col);
    } else {
      CondRow9(col);
    }
  }

  lemma CondRowGroup5(row: int, col: int)
    requires 10 <= row < 12 && 0 <= col < 16
    ensures var i := INS[row][col].operation; (i.JpCond? || i.JrCond? || i.CallCond? || i.RetCond?) ==> CondIndex(i) == row * 16 + col
  {
    if row == 10 {
      CondRow10(col);
    } else {
      CondRow11(col);
    }
  }

  lemma CondRowGroup6(row: int, col: int)
    requires 12 <= row < 14 && 0 <= col < 16
    ensures var i := INS[row][col].operation; (i.JpCond? || i.JrCond? || i.CallCond? || i.RetCond?) ==> CondIndex(i) == row * 16 + col
  {
    if row == 12 {
      CondRow12(col);
    } else {
      CondRow13(col);
    }
  }

  lemma CondRowGroup7(row: int, col: int)
    requires 14 <= row < 16 && 0 <= col < 16
    ensures var i := INS[row][col].operation; (i.JpCond? || i.JrCond? || i.CallCond? || i.RetCond?) ==> CondIndex(i) == row * 16 + col
  {
    if row == 14 {
      CondRow14(col);
    } else {
      CondRow15(col);
    }
  }
}
