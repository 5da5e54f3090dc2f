# grub-extras in Dafny

A Dafny model of the logic in a collection of GRUB add-on modules, with proofs of what that logic promises.

**Game Boy emulator.** The emulator runs inside GRUB on an EFI machine. The model covers:

- the CPU interpreter: the ALU helpers and their Z/N/H/C flag rules, the three instruction tables, PUSH and POP, EI/DI and the one-instruction delay of the interrupt enable, and `exec_opcode` with its PC and cycle accounting;
- the DIV/TIMA/TMA/TAC timers;
- the scanline renderer: colour conversion, palette caches, and background, window and sprite rows;
- cartridge header decoding and memory bank controller 0;
- the per-frame scheduler;
- the joypad button table and the integer upscaler of the EFI screen.

The memory, the LCD mode machine, the interrupt controller and the sprite priority list are implemented in other files. In the model their answers are inputs.

**CHIP-8 interpreter.** The model covers:

- every opcode handler over the interpreter state;
- the ordered mask table and its subset-match dispatch;
- the 64x32 display buffer with set, xor and flip;
- the key map;
- the interpreter loop, with its timers, key wait and stop on an unknown opcode.

The handlers, the display and the loop are imperative Dafny (a class over arrays). They are proved against a pure machine model (`C8Machine`), and the machine model's properties are lemmas (`C8MachineProps`).

**Smaller modules.**

- `sokoban`: level parser, move and push rule, and win check.
- `pong`: the per-tick ball, bat and score rules.
- `deepin_gfxmode`: the duplicate-free mode list and the string builder that serialises it.
- `grubfm`: the file manager's path and menu-entry derivation.
- `raiddump`: argument validation and the sector copy.
- `enable_s0`: the ACPI FADT patch, following sections 5.2.6 and 5.2.9 of the ACPI Specification.
- `cachetest`: the performance-counter configuration words (Intel SDM Vol. 3B, section 18.2.1), the CPUID leaf 0x0A fields and the CR0 cache bits (Intel SDM Vol. 3A, section 2.5).

Integers are unbounded. C's 8-, 16- and 32-bit wrap-around is written out wherever the source relies on it. Out-of-bounds accesses that the C code does not guard are treated in one of two ways:

- an explicit fault or out-of-range outcome;
- a precondition, where every caller establishes it.

## Model

| member | source | states |
|---|---|---|
| GbAlu.Carry | gameboy/core/cpu.c:36-45 | the carry bit field reads as 1 exactly when C is set and 0 otherwise |
| GbAlu.FlagsByte | gameboy/core/cpu.c:36-45 | F as a byte holds the four flags in bits 7 to 4 and a zero low nibble |
| GbAlu.FlagsRoundTrip | gameboy/core/cpu.c:306-311 | packing flags into F and reading them back gives the flags; reading a byte as F and packing clears its low nibble, the `F &= 0xF0` of POP AF |
| GbAlu.Add8 | gameboy/core/cpu.c:324-332 | ADD_8 gives the sum modulo 256, Z when it is 0, H exactly on a carry out of the low nibble, C exactly when the true sum exceeds 0xFF, N clear |
| GbAlu.Adc8 | gameboy/core/cpu.c:345-354 | ADC_8 gives a + b + carry modulo 256, with H and C exactly on the carries of that three-way sum |
| GbAlu.AddSubExamples | gameboy/core/cpu.c:324-374 | 0x0F + 0x01 sets only H; 0x00 - 0x01 gives 0xFF with H, C and N set |
| GbAlu.Sub8 | gameboy/core/cpu.c:367-374 | SUB_8 gives the difference modulo 256, N set, H exactly on a borrow from the low nibble, C exactly on a borrow |
| GbAlu.Sbc8 | gameboy/core/cpu.c:388-396 | SBC_8 gives a - b - carry modulo 256, with H and C exactly on the borrows of that difference |
| GbAlu.And | gameboy/core/cpu.c:413-421 | C's `&` on bytes: never above either operand |
| GbAlu.Or | gameboy/core/cpu.c:437-445 | C's bitwise OR: at least either operand, zero exactly when both are |
| GbAlu.Xor | gameboy/core/cpu.c:459-468 | C's `^`: zero exactly when the operands are equal |
| GbAlu.BitwiseBound | gameboy/core/cpu.c:437-468 | OR and XOR of two n-bit numbers stay n-bit |
| GbAlu.BytesBitwise | gameboy/core/cpu.c:437-468 | OR and XOR of bytes are bytes, so `reg.A` needs no truncation after them |
| GbAlu.XorTwice | gameboy/core/cpu.c:459-468 | XOR with the same byte twice gives the value back |
| GbAlu.And8 | gameboy/core/cpu.c:413-421 | AND_8 gives a & b, Z when it is 0, H set, N and C clear |
| GbAlu.Or8 | gameboy/core/cpu.c:437-445 | OR_8 gives the bitwise OR of a and b, Z exactly when both operands are 0, N, H and C clear |
| GbAlu.Xor8 | gameboy/core/cpu.c:459-468 | XOR_8 gives a ^ b, Z exactly when the operands are equal, N, H and C clear |
| GbAlu.Cp8 | gameboy/core/cpu.c:482-488 | CP_8 sets Z exactly when equal, N, H on a low-nibble borrow, C exactly when a < b |
| GbAlu.CompareIsSubtract | gameboy/core/cpu.c:367-374 | a compare leaves exactly the flags the subtraction would |
| GbAlu.Inc8 | gameboy/core/cpu.c:502-509 | INC_8 gives v + 1 modulo 256, Z exactly when v was 0xFF, H exactly when the low nibble was 0xF, C kept |
| GbAlu.Dec8 | gameboy/core/cpu.c:527-534 | DEC_8 gives v - 1 modulo 256, Z exactly when v was 1, H exactly when the low nibble was 0, N set, C kept |
| GbAlu.IncDecInverse | gameboy/core/cpu.c:502-534 | INC and DEC undo each other, and DEC after INC sets Z exactly when the byte was 0 |
| GbAlu.Add16 | gameboy/core/cpu.c:556-562 | ADD_16 gives the sum modulo 0x10000, H on a carry out of bit 11, C when the sum exceeds 0xFFFF, Z kept, N clear |
| GbAlu.Signed8 | gameboy/core/cpu.c:24 | `(n & 127) - (n & 128)` is the two's-complement reading of the byte, in -128..127 and congruent to n modulo 256 |
| GbAlu.Bit4 | gameboy/core/cpu.c:284-288 | bit 4 of a number as C's `^` sees it in two's complement is 0 or 1 |
| GbAlu.Bit8 | gameboy/core/cpu.c:284-288 | bit 8, likewise |
| GbAlu.AddSpImm | gameboy/core/cpu.c:569-579 | ADD_SP_IM8 gives SP plus the signed immediate modulo 0x10000 with Z and N clear |
| GbAlu.LdHlSpImm | gameboy/core/cpu.c:279-288 | LD_HL_SP_n gives SP plus the signed immediate modulo 0x10000 with Z and N clear |
| GbAlu.CarryBits | gameboy/core/cpu.c:284-288 | in x ^ y ^ (x + y), bit 4 is the carry out of the low nibbles and bit 8 the carry out of the low bytes, also after the 16-bit cut |
| GbAlu.SpFlags | gameboy/core/cpu.c:279-288 | the two SP additions agree, and set H and C exactly on the carries of adding the unsigned immediate to SP's low byte |
| GbAlu.Swap | gameboy/core/cpu.c:601-607 | SWAP_n exchanges the nibbles, Z exactly when the byte is 0, N, H and C clear |
| GbAlu.SwapTwice | gameboy/core/cpu.c:601-607 | swapping twice gives the byte back |
| GbAlu.Cpl | gameboy/core/cpu.c:652 | CPL gives 0xFF - A, sets N and H, keeps Z and C |
| GbAlu.Ccf | gameboy/core/cpu.c:656 | CCF flips C, clears N and H, keeps Z |
| GbAlu.Scf | gameboy/core/cpu.c:659 | SCF sets C, clears N and H, keeps Z |
| GbAlu.Rlc | gameboy/core/cpu.c:748-755 | RLC moves bit 7 to C and to bit 0; Z only for the CB form (RLCA at 709-715 clears it) |
| GbAlu.Rl | gameboy/core/cpu.c:777-786 | RL moves bit 7 to C and the old carry to bit 0 |
| GbAlu.Rrc | gameboy/core/cpu.c:805-812 | RRC moves bit 0 to C and to bit 7 |
| GbAlu.Rr | gameboy/core/cpu.c:832-840 | RR moves bit 0 to C and the old carry to bit 7 |
| GbAlu.RotateInverse | gameboy/core/cpu.c:709-840 | a right rotation undoes the left one, and through the carry it also restores the carry |
| GbAlu.Sla | gameboy/core/cpu.c:860-868 | SLA doubles modulo 256 with bit 7 to C |
| GbAlu.Sra | gameboy/core/cpu.c:890-897 | SRA keeps bit 7, shifts the rest right, bit 0 to C |
| GbAlu.Srl | gameboy/core/cpu.c:918-925 | SRL halves, bit 0 to C |
| GbAlu.SraHalves | gameboy/core/cpu.c:890-897 | read as a signed byte, SRA halves rounding down |
| GbAlu.Shr | gameboy/core/cpu.c:946-951 | `v >> k` never exceeds v |
| GbAlu.ShrValue | gameboy/core/cpu.c:946-951 | `v >> k` is v divided by 2^k, rounding down |
| GbAlu.BitOf | gameboy/core/cpu.c:946-951 | `(v >> k) & 1` is 0 or 1 |
| GbAlu.AndBit | gameboy/core/cpu.c:1144-1147 | bit k of a & b is set exactly when it is set in both |
| GbAlu.OrBit | gameboy/core/cpu.c:1054-1057 | bit k of the bitwise OR of a and b is set exactly when it is set in either |
| GbAlu.PowerBit | gameboy/core/cpu.c:1054-1057 | `1 << b` has only bit b set |
| GbAlu.NotPowerBit | gameboy/core/cpu.c:1144-1147 | `~(1 << b)` cut to n bits has every bit below n set except bit b |
| GbAlu.TestBit | gameboy/core/cpu.c:946-951 | BIT sets Z exactly when bit b is clear, H set, N clear, C kept |
| GbAlu.SetBit | gameboy/core/cpu.c:1054-1057 | SET_b_r gives a byte |
| GbAlu.ResBit | gameboy/core/cpu.c:1144-1147 | RES_b_r gives a byte |
| GbAlu.SetResBits | gameboy/core/cpu.c:946-1147 | SET and RES write bit b and keep every other bit, so a BIT test afterwards sees what was written |
| GbAlu.Daa | gameboy/core/cpu.c:626-647 | DAA gives a byte, Z from it, H clear, N kept; after an addition C is set exactly when it was or A exceeded 0x99, after a subtraction C is kept |
| GbAlu.ToBcd | gameboy/core/cpu.c:626-647 | a number below 100 as two decimal digits in a byte |
| GbAlu.DaaAfterAdd | gameboy/core/cpu.c:626-647 | DAA after adding two BCD bytes gives their decimal sum modulo 100, with C exactly when the sum reaches 100 |
| GbAlu.DaaDigitsAdd | gameboy/core/cpu.c:626-636 | DAA on two added digit columns gives their BCD value modulo 100 |
| GbAlu.DaaAddExact | gameboy/core/cpu.c:626-636 | DAA when the units column did not carry: only the tens are adjusted |
| GbAlu.DaaAddAdjusted | gameboy/core/cpu.c:626-636 | DAA when the units column reached 10 or more |
| GbAlu.DaaAfterSub | gameboy/core/cpu.c:626-647 | DAA after subtracting two BCD bytes gives their decimal difference modulo 100, with C exactly when it borrowed |
| GbAlu.DaaDigitsSub | gameboy/core/cpu.c:637-646 | DAA on two subtracted digit columns gives their BCD value modulo 100 |
| GbAlu.DaaSubExact | gameboy/core/cpu.c:637-646 | DAA when the units column did not borrow |
| GbAlu.DaaSubAdjusted | gameboy/core/cpu.c:637-646 | DAA when the units column borrowed |
| GbCpuSpec.Half | gameboy/core/cpu.c:73-76 | C's `cycles /= 2` on a long truncates toward zero, for negative counts too |
| GbCpu.Cpu.constructor | gameboy/core/cpu.c:29-45 | the statics as the program starts: interrupts enabled, no enable pending, nothing handed on, the table's cycle counts |
| GbCpu.Cpu.WriteWord | gameboy/core/cpu.c:292 | set_mem_16 stores the low byte at the address and the high byte after it |
| GbCpu.Cpu.Push | gameboy/core/cpu.c:297 | PUSH lowers SP by two with wrap-around and stores the word there |
| GbCpu.Cpu.UpdateAllCycles | gameboy/core/cpu.c:73-81 | update_all_cycles hands on the count, halved at double speed |
| GbCpu.Cpu.Load | gameboy/core/cpu.c:93-317 | a load or stack handler leaves the state RunLoad gives |
| GbCpu.Cpu.LoadMem | gameboy/core/cpu.c:93-206 | LD between registers, (HL), an immediate, (BC) and (DE) |
| GbCpu.Cpu.LoadAddr | gameboy/core/cpu.c:208-239 | A to and from (nn), and LDI and LDD stepping HL |
| GbCpu.Cpu.LoadANn | gameboy/core/cpu.c:208-213 | LD A,(nn) hands on 8 cycles, reads the byte at the immediate address into A and records 8 as passed |
| GbCpu.Cpu.StoreNnA | gameboy/core/cpu.c:222-226 | LD (nn),A hands on 8 cycles, stores A at the immediate address and records 8 as passed |
| GbCpu.Cpu.LoadAHl | gameboy/core/cpu.c:229-235 | LDD and LDI A,(HL) read (HL) into A, then step HL down or up in 16 bits |
| GbCpu.Cpu.StoreHlA | gameboy/core/cpu.c:232-238 | LDD and LDI (HL),A store A at HL, then step HL down or up in 16 bits |
| GbCpu.Cpu.LoadIo | gameboy/core/cpu.c:241-261 | LDH to and from 0xFF00 + n and 0xFF00 + C |
| GbCpu.Cpu.Load16 | gameboy/core/cpu.c:263-292 | the 16-bit immediate loads, LD SP,HL, LD HL,SP+n and LD (nn),SP |
| GbCpu.Cpu.Stack | gameboy/core/cpu.c:294-317 | PUSH and POP of the register pairs |
| GbCpu.Cpu.Arith | gameboy/core/cpu.c:320-660 | an arithmetic handler leaves the state RunArith gives |
| GbCpu.Cpu.Alu8 | gameboy/core/cpu.c:320-549 | the 8-bit operations into A, INC and DEC, the A rotates |
| GbCpu.Cpu.Alu16 | gameboy/core/cpu.c:551-595 | ADD HL,rr, ADD SP,n, INC rr and DEC rr |
| GbCpu.Cpu.Accum | gameboy/core/cpu.c:624-660 | DAA, CPL, CCF and SCF |
| GbCpu.Cpu.IncDec | gameboy/core/cpu.c:502-549 | INC and DEC of a register, or of (HL) with 4 cycles handed on between the read and the write |
| GbCpu.Cpu.Flow | gameboy/core/cpu.c:1235-1323 | a jump, call or return leaves the state RunFlow gives |
| GbCpu.Cpu.Jump | gameboy/core/cpu.c:1235-1266 | JP, JP cc, JP HL, JR and JR cc; a conditional one writes its taken or untaken count into its own table entry |
| GbCpu.Cpu.CallReturn | gameboy/core/cpu.c:1268-1323 | CALL, CALL cc, RST, RET, RET cc and RETI |
| GbCpu.Cpu.CallNn | gameboy/core/cpu.c:1271-1275 | CALL_nn pushes PC and then reads the immediate |
| GbCpu.Cpu.Ret | gameboy/core/cpu.c:1309 | RET pops PC |
| GbCpu.Cpu.Restart | gameboy/core/cpu.c:1290-1294 | restart pushes PC and jumps to the address |
| GbCpu.Cpu.Control | gameboy/core/cpu.c:661-698 | NOP, HALT, STOP, DI, EI and the unused opcodes |
| GbCpu.Cpu.Stop | gameboy/core/cpu.c:670-686 | STOP stops; with a speed switch armed in KEY1 and allowed, it flips the speed, writes 0x80 or 0 to KEY1 and runs on |
| GbCpu.Cpu.Operate | gameboy/core/cpu.c:1328-1425 | the handler of any main-table instruction leaves the state Run gives |
| GbCpu.Cpu.OperateExt | gameboy/core/cpu.c:745-1233 | the handler of any prefixed instruction leaves the state RunExt gives |
| GbCpu.Cpu.ExtOnRegister | gameboy/core/cpu.c:745-1233 | a prefixed instruction on a register |
| GbCpu.Cpu.ExtOnMemory | gameboy/core/cpu.c:766-1155 | a prefixed instruction on (HL), handing on 4 cycles before the read and 4 before the write (BIT only the first) |
| GbCpu.Cpu.ExecOpcode | gameboy/core/cpu.c:1579-1610 | exec_opcode leaves the state and returns the count Exec gives |
| GbCpu.Cpu.Fetch | gameboy/core/cpu.c:1581-1592 | the pending enable promoted, the opcode read at PC, PC stepped back under the halt bug and past the instruction |
| GbCpu.Cpu.PromoteIme | gameboy/core/cpu.c:1581-1584 | a pending enable becomes the master enable and is cleared; nothing else changes |
| GbCpu.Cpu.MovePast | gameboy/core/cpu.c:1588-1591 | PC goes back one byte under the halt bug and then past the instruction by its length, in 16 bits |
| GbCpu.Cpu.ExecMain | gameboy/core/cpu.c:1593-1601 | a main-table handler, then the table's count less what it handed on itself |
| GbCpu.Cpu.Settle | gameboy/core/cpu.c:1595-1597 | after a main-table handler, the table's count less what the handler handed on itself is handed on, nothing is left recorded as passed, and the table's count is returned |
| GbCpu.Cpu.ExecPrefixed | gameboy/core/cpu.c:1603-1608 | the byte after 0xCB chooses the prefixed handler, then 8 cycles are handed on |
| GbCpu.Cpu.ResetCpu | gameboy/core/cpu.c:1557-1569 | reset_cpu leaves the state Reset gives |
| GbCpu.Cpu.MasterInterruptsEnabled | gameboy/core/cpu.c:1544-1546 | returns the master enable |
| GbCpu.Cpu.MasterInterruptsDisable | gameboy/core/cpu.c:1548-1550 | clears the master enable and nothing else |
| GbCpu.Cpu.MasterInterruptsEnable | gameboy/core/cpu.c:1552-1554 | sets the master enable and nothing else |
| GbCpuProps.PairRoundTrip | gameboy/core/cpu.c:36-45 | writing a register pair back with its own value changes nothing |
| GbCpuProps.PairWriteRead | gameboy/core/cpu.c:36-45 | a pair reads back what was written, except that AF loses F's low nibble |
| GbCpuProps.WriteRead16 | gameboy/core/cpu.c:292 | a word written with set_mem_16 reads back with get_mem_16 |
| GbCpuProps.PushThenPop | gameboy/core/cpu.c:297-317 | PUSH rr then POP rr restores every register, SP included (for BC, DE, HL and AF) |
| GbCpuProps.PopAfClearsNibble | gameboy/core/cpu.c:308-311 | POP AF gives the popped word with F's low nibble cleared and SP two higher |
| GbCpuProps.TotalAppend | gameboy/core/cpu.c:73-81 | the counts handed on add up |
| GbCpuProps.LoadPlain | gameboy/core/cpu.c:93-317 | a load keeps PC, both interrupt flags and the speed, and hands on nothing or once what it records |
| GbCpuProps.ArithPlain | gameboy/core/cpu.c:320-660 | an arithmetic handler does likewise |
| GbCpuProps.LoadMemPlain | gameboy/core/cpu.c:93-206 | likewise for the register and (HL) loads |
| GbCpuProps.LoadAddrPlain | gameboy/core/cpu.c:208-239 | likewise for (nn), LDI and LDD |
| GbCpuProps.LoadIoPlain | gameboy/core/cpu.c:241-261 | likewise for LDH |
| GbCpuProps.Load16Plain | gameboy/core/cpu.c:263-292 | likewise for the 16-bit loads |
| GbCpuProps.StackPlain | gameboy/core/cpu.c:294-317 | likewise for PUSH and POP |
| GbCpuProps.Alu8Plain | gameboy/core/cpu.c:320-549 | likewise for the 8-bit arithmetic |
| GbCpuProps.Alu16Plain | gameboy/core/cpu.c:551-595 | likewise for the 16-bit arithmetic |
| GbCpuProps.AccumPlain | gameboy/core/cpu.c:624-660 | likewise for DAA, CPL, CCF and SCF |
| GbCpuProps.IncDecPlain | gameboy/core/cpu.c:502-549 | likewise for INC and DEC |
| GbCpuProps.FlowQuiet | gameboy/core/cpu.c:1235-1323 | jumps, calls and returns hand nothing on and only RETI arms the enable |
| GbCpuProps.JumpQuiet | gameboy/core/cpu.c:1235-1266 | jumps hand nothing on and keep the interrupt flags |
| GbCpuProps.CallQuiet | gameboy/core/cpu.c:1268-1323 | calls and returns hand nothing on; RETI arms the enable |
| GbCpuProps.PushQuiet | gameboy/core/cpu.c:1271-1303 | CALL, CALL cc and RST change only registers and memory |
| GbCpuProps.PushKeeps | gameboy/core/cpu.c:297 | a push changes only the registers and memory |
| GbCpuProps.ReturnQuiet | gameboy/core/cpu.c:1309-1323 | RET, RET cc and RETI hand nothing on; RETI arms the enable |
| GbCpuProps.ControlQuiet | gameboy/core/cpu.c:661-698 | NOP, HALT, STOP, DI and EI keep PC; DI clears both interrupt flags, EI arms the enable, only STOP may change speed |
| GbCpuProps.ExtQuiet | gameboy/core/cpu.c:745-1233 | a prefixed handler keeps PC, the interrupt flags and the speed |
| GbCpuProps.RunSummary | gameboy/core/cpu.c:1328-1425 | what any main-table handler does to PC, the interrupt flags, the speed and the counts handed on |
| GbCpuProps.Fetched | gameboy/core/cpu.c:1581-1592 | the handler starts with the enable promoted, nothing pending, PC past the instruction (from one byte early under the halt bug) and everything else as before |
| GbCpuProps.MainStep | gameboy/core/cpu.c:1593-1601 | a main-table step returns the count in the table after the handler ran and leaves nothing recorded as passed |
| GbCpuProps.ExtStep | gameboy/core/cpu.c:1603-1608 | a prefixed step keeps PC and the interrupt flags |
| GbCpuProps.ExecIme | gameboy/core/cpu.c:1581-1584 | after exec_opcode the master enable is the old enable or the pending one, unless the opcode was DI; only EI and RETI leave an enable pending |
| GbCpuProps.EiDelay | gameboy/core/cpu.c:698 | EI takes effect one instruction late: off right after it, on after the next instruction unless that is DI |
| GbCpuProps.ExecPc | gameboy/core/cpu.c:1586-1589 | except for jumps, calls and returns, PC ends past the instruction by its length in the words table |
| GbCpuProps.MainHalt | gameboy/core/cpu.c:667 | HALT leaves the CPU halted |
| GbCpuProps.ExecHalt | gameboy/core/cpu.c:667 | exec_opcode on 0x76 leaves the CPU halted |
| GbCpuProps.RunCondCycles | gameboy/core/cpu.c:1240-1318 | a conditional handler writes 16/12, 12/8, 24/12 or 20/8 by its condition into its own table entry and nothing else |
| GbCpuProps.JumpCondCycles | gameboy/core/cpu.c:1240-1260 | JP cc and JR cc write their own entry |
| GbCpuProps.CallCondCycles | gameboy/core/cpu.c:1277-1318 | CALL cc and RET cc write their own entry |
| GbCpuProps.ExecCondCycles | gameboy/core/cpu.c:1593-1601 | exec_opcode returns, for a conditional instruction, the count of the branch its flags select |
| GbCpuProps.RelativeWords | gameboy/core/cpu.c:1515-1536 | JR and JR cc are two bytes long |
| GbCpuProps.RunRelative | gameboy/core/cpu.c:1253 | JR adds the signed immediate to the advanced PC in 16 bits |
| GbCpuProps.SameImm8 | gameboy/core/cpu.c:22-24 | the immediate read from the advanced PC is the byte after the opcode |
| GbCpuProps.MainRelative | gameboy/core/cpu.c:1253-1260 | a taken relative jump lands at RelativeTarget |
| GbCpuProps.ExecRelativeJump | gameboy/core/cpu.c:1253-1260 | JR and a taken JR cc land at the opcode's address plus 2 plus the signed byte after it, in 16 bits, the opcode taken one byte earlier under the halt bug |
| GbCpuProps.MainFeeds | gameboy/core/cpu.c:1593-1601 | at normal speed a main-table step hands on exactly the cycles it returns |
| GbCpuProps.ExecFeeds | gameboy/core/cpu.c:1593-1601 | at normal speed exec_opcode hands on exactly the cycles it returns for a main-table instruction other than STOP |
| GbCpuProps.ExtFed | gameboy/core/cpu.c:766-1155 | a prefixed handler hands on nothing for a register, 4 for BIT (HL) and 4 and 4 for the others on (HL) |
| GbCpuProps.ExtTotal | gameboy/core/cpu.c:1603-1608 | the prefixed step hands on 8 or 16 cycles, 12 for BIT (HL) |
| GbCpuProps.ExtFeeds | gameboy/core/cpu.c:1603-1608 | a prefixed instruction hands on what it returns, except BIT b,(HL), which returns 16 and hands on 12 |
| GbCpuProps.ResetValues | gameboy/core/cpu.c:1557-1569 | reset_cpu sets A to 0x11 or 0x01, Z, H and C, BC, DE, HL, SP 0xFFFE, PC 0, normal speed, not halted, not stopped |
| GbOpcodes.OperandBytes | gameboy/core/cpu.c:22-23 | a handler reads at most two immediate bytes |
| GbOpcodes.ExtDecode | gameboy/core/cpu.c:1427-1509 | the prefixed table by its regular layout: an instruction on (HL) (low three bits 6) takes 16 cycles and one on a register 8; bit numbers are 0 to 7 |
| GbOpcodes.ExtTableLayout | gameboy/core/cpu.c:1427-1509 | every entry of ext_ins as written is the entry of that layout |
| GbOpcodes.WordsMatchOperands | gameboy/core/cpu.c:1515-1536 | every ins_words entry is one more than the immediate bytes its handler reads, except STOP and 0xCB, which are 2 |
| GbOpcodes.CondIndex | gameboy/core/cpu.c:1240-1318 | the table entry a conditional handler overwrites is an opcode |
| GbOpcodes.CondOwnEntry | gameboy/core/cpu.c:1328-1425 | every conditional handler sits at the very entry it overwrites, so exec_opcode reads back the count it chose |
| GbOpcodes.SingleEntry | gameboy/core/cpu.c:1328-1425 | DI, EI, RETI, HALT and STOP sit only at 0xF3, 0xFB, 0xD9, 0x76 and 0x10, and 0xCB holds the invalid handler |
| GbTimers.Initial | gameboy/core/timers.c:10-12 | the timer starts with no period chosen and both counters at 0 |
| GbTimers.SetFrequency | gameboy/core/timers.c:17-21 | an index below 4 selects 1024, 16, 64 or 256 cycles; any other index leaves the period |
| GbTimers.Effective | gameboy/core/timers.c:23-25 | the period is halved at double speed, toward zero, so -1 reads as 0 there |
| GbTimers.IncrementTima | gameboy/core/timers.c:29-39 | TIMA goes up by one; exactly when it was 255 it takes TMA and the timer interrupt is raised |
| GbTimers.TimaAfterOverflow | gameboy/core/timers.c:29-39 | n increments raise the interrupt exactly when they carry TIMA past 255, and short of that add n |
| GbTimers.RaisedStays | gameboy/core/timers.c:35 | a raised timer interrupt stays raised |
| GbTimers.TimerLoop | gameboy/core/timers.c:84-88 | the loop leaves a non-negative counter, a byte in TIMA and a period from the table, the old one or the one TAC now selects |
| GbTimers.TimerLoopClosedForm | gameboy/core/timers.c:84-88 | with the period unchanged, TIMA is incremented once per whole period in the counter and the remainder stays |
| GbTimers.NewPeriodAfterIncrement | gameboy/core/timers.c:84-88 | a period changed in TAC takes effect only after the next increment |
| GbTimers.DividerStep | gameboy/core/timers.c:55-59 | one divider period taken off the counter is one DIV increment less to go |
| GbTimers.DividerBelow | gameboy/core/timers.c:56 | a counter below the period adds no increment |
| GbTimers.SplitCount | gameboy/core/timers.c:50-60 | whole periods counted in two updates add up to those counted in one |
| GbTimers.DividerAdditive | gameboy/core/timers.c:50-60 | splitting the cycles over two updates leaves DIV and its counter as one update would: no cycle is lost |
| GbTimers.ClockTick | gameboy/core/timers.c:66-71 | the cycles go into the clock count, a second to the MBC3 clock whenever it passes 4 MiB, nothing else changes and no cycle is lost |
| GbTimers.TimerUpdate | gameboy/core/timers.c:73-89 | the TIMA part keeps the timer state well formed |
| GbTimers.UpdateValid | gameboy/core/timers.c:65-90 | update_timers leaves TAC and TMA alone and DIV advanced by the whole divider periods, 256 or 128 cycles, of the counter plus the cycles |
| GbTimers.UpdateTimer | gameboy/core/timers.c:73-89 | with TAC bit 2 clear TIMA, its counter, its period and the interrupt are left alone; with it set and the period settled TIMA advances once per period of the accumulated cycles |
| GbTimers.Timers.constructor | gameboy/core/timers.c:10-12 | the statics as the program starts |
| GbTimers.Timers.UpdateDivider | gameboy/core/timers.c:50-60 | update_divider_reg's loop leaves the state DividerUpdate gives |
| GbTimers.Timers.TickClock | gameboy/core/timers.c:66-71 | the clock part of update_timers leaves the state ClockTick gives |
| GbTimers.Timers.RunTimer | gameboy/core/timers.c:73-89 | the timer loop leaves the state TimerUpdate gives |
| GbTimers.Timers.UpdateTimers | gameboy/core/timers.c:65-90 | update_timers leaves the state Update gives |
| GbRomInfo.FindFrom | gameboy/core/rom_info.c:115-119 | the search finds the first position from `from` holding the id, or reports that none does |
| GbRomInfo.Find | gameboy/core/rom_info.c:115-119 | the first position holding the id, None exactly when the id is not in the table |
| GbRomInfo.Lookup | gameboy/core/rom_info.c:81-108 | a name is returned exactly when the id is listed, and it is a name listed with that id |
| GbRomInfo.IncreasingPairs | gameboy/core/rom_info.c:41-53 | with increasing ids every earlier entry has a smaller id |
| GbRomInfo.LookupUnique | gameboy/core/rom_info.c:81-108 | with increasing ids the lookup gives a name exactly when some entry lists that name under the id |
| GbRomInfo.LicenseIdsIncreasing | gameboy/core/rom_info.c:41-46 | the new licensee table lists its ids in increasing order |
| GbRomInfo.OldLicenseIdsIncreasing | gameboy/core/rom_info.c:48-53 | the old licensee table lists its ids in increasing order |
| GbRomInfo.NewLicenseId | gameboy/core/rom_info.c:81-108 | the new licensee id is the low nibble of the first code byte above the low nibble of the second |
| GbRomInfo.Licensee | gameboy/core/rom_info.c:81-108 | with the escape byte 0x33 the new code is looked up in the new table, otherwise the old code in the old table; NULL exactly for an unlisted id |
| GbRomInfo.LicenseeKnown | gameboy/core/rom_info.c:81-108 | a licensee name is returned exactly when the table the old code selects lists it under the id |
| GbRomInfo.IdToRomSize | gameboy/core/rom_info.c:111-121 | an id the size table does not list gives 0, and no size is negative |
| GbRomInfo.RomSizeIsPowerOfTwo | gameboy/core/rom_info.c:113-121 | the ROM size for id n is 32 << n KB for ids 0 to 8 and 0 otherwise, and indexing by the id reads within the table |
| GbRomInfo.RomSize | gameboy/core/rom_info.c:125-129 | get_rom_size is 32 << id KB for ids 0 to 8 and 0 otherwise |
| GbRomInfo.CartridgeType | gameboy/core/rom_info.c:135-144 | a name is returned exactly when the type byte is listed, and it is listed with that byte |
| GbRomInfo.IdToRamSaveSizeAsWritten | gameboy/core/rom_info.c:149-156 | as written the lookup reads past the table exactly for a listed id of 5 or more |
| GbRomInfo.RamSaveSizeId5ReadsPastEnd | gameboy/core/rom_info.c:149-156 | id 5 is found at position 4, and the code as written then reads entry 5 of a five-entry table |
| GbRomInfo.IdToRamSaveSize | gameboy/core/rom_info.c:149-156 | corrected: 255 for an unlisted id, otherwise the size listed with the id |
| GbRomInfo.RamSaveSizeCorrected | gameboy/core/rom_info.c:149-156 | the corrected lookup gives 64 KB for id 5 and agrees with the code as written on every other id |
| GbRomInfo.RamSaveSize | gameboy/core/rom_info.c:161-163 | the cartridge's RAM save size through the corrected lookup: 255 for an unlisted id and the size at the matching position otherwise (64 KB for id 5, where get_ram_save_size as written reads past the table, as "## Findings" records) |
| GbRomInfo.DestinationCode | gameboy/core/rom_info.c:166-171 | the code is "Japanese" exactly for a zero destination byte, and "Non-Japanese" otherwise |
| GbRomInfo.HasSgbFeatures | gameboy/core/rom_info.c:173-178 | Super Game Boy features are reported exactly for the function byte 0x03 |
| GbRomInfo.IsColourCompatible | gameboy/core/rom_info.c:180-185 | colour-compatible exactly for the flag byte 0x80, which is never the colour-only byte |
| GbRomInfo.IsColourOnly | gameboy/core/rom_info.c:188-190 | colour-only exactly for the flag byte 0xC0, which is never the colour-compatible byte |
| GbRomInfo.HeaderFlags | gameboy/core/rom_info.c:168-190 | the destination is Japanese exactly for a zero byte, and no cartridge is both colour-compatible (0x80) and colour-only (0xC0) |
| GbMbc0.Read | gameboy/core/mmu/mbc0.c:14-21 | an address above 0x8000 reads 0; one at or below it reads the ROM byte there, or no byte when the image is shorter |
| GbMbc0.ReadAfterWrite | gameboy/core/mmu/mbc0.c:24-26 | a write changes nothing, so every read after it returns what it did before |
| GbMbc0.ThirtyTwoKilobyteImage | gameboy/core/mmu/mbc0.c:5-21 | for a 32 KB image both banks read back the image, the address 0x8000 the guard admits lies past it, and higher addresses read 0 |
| GbJoypad.Select | gameboy/shared_libs/joypad.c:177-188 | the button a keystroke presses is the first whose scan code equals the keystroke's and, when that is 0, whose key code equals its character; None when no button matches |
| GbJoypad.DefaultBindings | gameboy/shared_libs/joypad.c:67-70 | with the default bindings the arrows select by scan code and A, B, START and SELECT by 'a', 's', carriage return and space; any other nonzero scan code selects nothing |
| GbJoypad.EscAt | gameboy/shared_libs/joypad.c:162-164 | the first ESC keystroke of the queue, or its length when there is none |
| GbJoypad.States | gameboy/shared_libs/joypad.c:139-189 | the eight button states after a run of keystrokes |
| GbJoypad.StatesStep | gameboy/shared_libs/joypad.c:177-188 | one more keystroke sets the button it selects and leaves the others |
| GbJoypad.StatesPressed | gameboy/shared_libs/joypad.c:137-192 | a button is pressed (1) exactly when some keystroke since the release selected it, and released (0) otherwise |
| GbJoypad.ScaleStep | gameboy/shared_libs/joypad.c:166-175 | '2' increments the scale, '1' decrements it but not below 1, every other key leaves it |
| GbJoypad.ScaleAtLeastOne | gameboy/shared_libs/joypad.c:166-175 | a scale of at least 1 stays so whatever keys arrive |
| GbJoypad.Joypad.constructor | gameboy/shared_libs/joypad.c:51-107 | the globals and init_joypad: default bindings, every button released, scale 1 |
| GbJoypad.Joypad.KeyPressed | gameboy/shared_libs/joypad.c:111-126 | key_pressed is true exactly when some button is held |
| GbJoypad.Joypad.UnsetKeys | gameboy/shared_libs/joypad.c:129-133 | unset_keys releases every button |
| GbJoypad.Joypad.FindButton | gameboy/shared_libs/joypad.c:177-188 | the search loop returns the button Select gives |
| GbJoypad.Joypad.UpdateKeys | gameboy/shared_libs/joypad.c:137-192 | update_keys releases every button, then applies the keystrokes up to the first ESC; it returns 1 exactly when an ESC came, and the scale follows the keys before it |
| GbScreen.Minus32 | gameboy/shared_libs/graphics.c:121-122 | an unsigned 32-bit subtraction, the plain difference when it does not wrap |
| GbScreen.Centre | gameboy/shared_libs/graphics.c:121-122 | the offset that centres a span on the screen leaves equal margins, up to one pixel |
| GbScreen.DivMod | gameboy/shared_libs/graphics.c:131-142 | quotient and remainder recompose the index |
| GbScreen.RowMajor | gameboy/shared_libs/graphics.c:131-142 | division undoes a row-major position |
| GbScreen.Source | gameboy/shared_libs/graphics.c:131-142 | each output index at scale s comes from a pixel inside the 160 by 144 frame |
| GbScreen.Enlarged | gameboy/shared_libs/graphics.c:131-142 | the frame enlarged by s has 160·144·s·s pixels |
| GbScreen.EnlargedPixel | gameboy/shared_libs/graphics.c:131-142 | pixel (X, Y) of the enlarged frame, in rows of 160·s, shows frame pixel (X / s, Y / s) |
| GbScreen.CursorAsWritten | gameboy/shared_libs/graphics.c:132-138 | the copying loops write at y·s·s·160 + 160·s·dy + x·s + i, the address arithmetic as written |
| GbScreen.CursorSource | gameboy/shared_libs/graphics.c:131-142 | every index the loops reach for frame pixel (x, y) is one whose source is that pixel |
| GbScreen.Screen.constructor | gameboy/shared_libs/graphics.c:34-99 | init_screen once a graphics output is found: scale 1, the mode's resolution, no output buffer yet |
| GbScreen.Screen.DrawScreen | gameboy/shared_libs/graphics.c:101-147 | draw_screen takes a new scale only when it fits (putting the saved screen back and allocating a new buffer) and otherwise restores the old one, then shows the frame centred, enlarged when the scale is above 1 |
| GbScreen.Enlarge | gameboy/shared_libs/graphics.c:131-142 | the four copying loops leave the buffer holding the enlarged frame |
| GbScreen.EnlargeRow | gameboy/shared_libs/graphics.c:132-141 | the s copies of one frame row extend what is done by one row |
| GbScreen.EnlargeLine | gameboy/shared_libs/graphics.c:134-140 | one output line extends what is done by one line |
| GbScreen.EnlargePixel | gameboy/shared_libs/graphics.c:137-139 | the s copies of one pixel extend what is done by s indices |
| GbPalette.Expand | gameboy/core/graphics.c:66-69 | a 5-bit channel scaled to 8 bits with truncation: 0 stays 0 and 31 becomes 255 |
| GbPalette.ExpandMonotone | gameboy/core/graphics.c:66-69 | a brighter channel never scales to a darker byte |
| GbPalette.ColourToRgb | gameboy/core/graphics.c:66-72 | cgb_color_to_rgb always gives an opaque colour |
| GbPalette.ColourChannels | gameboy/core/graphics.c:66-72 | red is bits 16-23, green 8-15 and blue 0-7, each the scaled channel, and bit 15 of the colour is ignored |
| GbPalette.Packed | gameboy/core/graphics.c:71 | three bytes packed under the alpha byte come back out of their positions |
| GbPalette.Grey | gameboy/core/graphics.c:66-72 | a colour with equal channels converts to the same grey in all three bytes |
| GbPalette.ColourExamples | gameboy/core/graphics.c:107-112 | 0x7FFF is opaque white, 0 opaque black, 0x56B5 and 0x294A the greys 0xAC and 0x52 |
| GbPalette.ShadesShown | gameboy/core/graphics.c:107-112 | the four monochrome shades convert to the listed colours, each darker than the one before |
| GbPalette.PaletteColour | gameboy/core/graphics.c:80 | a palette colour is byte 2i low and byte 2i+1 high with its top bit masked off |
| GbPalette.RenderedPalette | gameboy/core/graphics.c:74-86 | a refresh renders every entry of the palette memory |
| GbPalette.RenderedEntries | gameboy/core/graphics.c:74-100 | every rendered entry is opaque and depends only on its own two bytes |
| GbPalette.BgShade | gameboy/core/graphics.c:116-128 | get_dmg_bg_col: on a Color the rendered entry, otherwise the shade shown for 0 to 3 and 0 for any other id |
| GbPalette.SpriteShade | gameboy/core/graphics.c:103-114 | get_dmg_sprite_col: on a Color the entry of the palette, otherwise the shade shown for 0 to 3 and opaque black for any other id |
| GbPalette.ShadesConverted | gameboy/core/graphics.c:103-128 | off a Color both lookups show shade c as the conversion of its monochrome colour; the sprite fallback is the conversion of 0 |
| GbPalette.ShadeLookupsAgree | gameboy/core/graphics.c:103-128 | off a Color the two lookups agree on the four shades and differ on every other id |
| GbScanline.Bit | gameboy/core/graphics.c:226-227 | `(b >> k) & 1` is 0 or 1 |
| GbScanline.Shade | gameboy/core/graphics.c:269-272 | entry id of a monochrome palette register, bits 2id and 2id+1, is a shade 0 to 3 |
| GbScanline.Vram | gameboy/core/graphics.c:339-340 | a byte of video RAM bank 0 or 1 |
| GbScanline.SignedTileAddress | gameboy/core/graphics.c:415-423 | tile set 1 reads the tile number as signed around 0x9000: 0..127 at 0x9000 onwards and 128..255 at 0x8800 onwards |
| GbScanline.TileAddress | gameboy/core/graphics.c:415-423 | a tile's 16 bytes lie inside the tile data, below the background maps, on a 16-byte boundary |
| GbScanline.FetchTile | gameboy/core/graphics.c:389-431 | the map entry, its Color attributes, palette 0 to 7, and the tile line, turned upside down by attribute bit 6 for the background only |
| GbScanline.TilePixel | gameboy/core/graphics.c:433-449 | pixel j's colour id comes from bit j or 7 - j of the two bytes (attribute bit 5 mirrors); in colour mode the rendered colour of the tile's palette and the tile's priority, otherwise the monochrome shade through BGP |
| GbScanline.WindowX | gameboy/core/graphics.c:278-280 | the window's left edge is WX - 7, with WX below 7 taken as 0, never past 248 |
| GbScanline.SpriteHeight | gameboy/core/graphics.c:136 | sprites are 16 lines high when LCDC bit 2 is set and 8 otherwise |
| GbScanline.Crossing | gameboy/core/graphics.c:160-172 | the sprites kept are those of the list that cross the line and do not start right of the screen, in list order |
| GbScanline.CrossingMembers | gameboy/core/graphics.c:160-172 | a sprite is kept exactly when it is listed and crosses the line |
| GbScanline.CrossingPrefix | gameboy/core/graphics.c:160-172 | the sprites kept from a prefix of the list are a prefix of those kept from the whole list |
| GbScanline.Selected | gameboy/core/graphics.c:160-172 | at most 10 sprites are drawn on a line, the first 10 crossing it in priority-list order, and all of them when fewer cross |
| GbScanline.Selection | gameboy/core/graphics.c:160-172 | the selection loop stops with exactly the selected sprites, whether the list ran out or 10 were found |
| GbScanline.CrossingNext | gameboy/core/graphics.c:166-171 | one more sprite from the list is kept exactly when it crosses the line |
| GbScanline.FetchSprite | gameboy/core/graphics.c:175-217 | a selected sprite's line: its attributes, OBP0 or OBP1, a Color palette 0 to 7, its x position on or left of the screen |
| GbScanline.SpriteId | gameboy/core/graphics.c:225-228 | the colour id of a sprite pixel, mirrored by attribute bit 5, is 0 to 3 |
| GbScanline.SpritePixel | gameboy/core/graphics.c:220-256 | drawing one sprite pixel keeps the row well formed |
| GbScanline.SpritePixelRule | gameboy/core/graphics.c:229-255 | a sprite pixel writes only its own column and only its colour and id; colour id 0 is never drawn, nor a pixel behind a background with a non-zero id |
| GbScanline.SpritePixels | gameboy/core/graphics.c:220-257 | the first x pixels of a sprite line keep the row well formed |
| GbScanline.SpritePixelsFrame | gameboy/core/graphics.c:220-257 | a sprite line writes only the 8 columns from its x position |
| GbScanline.Sprites | gameboy/core/graphics.c:174-258 | the selected sprites drawn from the last towards the first keep the row well formed |
| GbScanline.SpritesNext | gameboy/core/graphics.c:174-175 | each step draws the next sprite from the end of the selection, so the first selected is drawn last and ends on top |
| GbScanline.SpritesFrame | gameboy/core/graphics.c:174-258 | columns no selected sprite covers are left as the tiles drew them |
| GbGraphics.WithRowAt | gameboy/core/graphics.c:443-448 | replacing row r of the pixel buffer changes that row and nothing else |
| GbGraphics.WithRowTwice | gameboy/core/graphics.c:443-448 | writing a row twice leaves the second row |
| GbGraphics.RotatedAt | gameboy/core/graphics.c:387-390 | column c of the line scrolled by SCX is map pixel (c + SCX) mod 256 |
| GbGraphics.BgMapLine | gameboy/core/graphics.c:378-391 | the background map's row under LY, 256 pixels |
| GbGraphics.BgLine | gameboy/core/graphics.c:369-456 | the background line is 160 pixels of the map line scrolled by SCX |
| GbGraphics.BgLineColumn | gameboy/core/graphics.c:378-440 | column c of the background line is pixel (c + SCX) mod 8 of the tile in map column ((c + SCX) mod 256) / 8 of map row ((LY + SCY) mod 256) / 8 |
| GbGraphics.WindowedAt | gameboy/core/graphics.c:304-306 | column c at or right of the window's edge shows window-map pixel c - edge |
| GbGraphics.WinLine | gameboy/core/graphics.c:264-366 | the window line is 160 pixels, the window map from the edge on |
| GbGraphics.WinLineColumn | gameboy/core/graphics.c:274-352 | column c at or right of the edge is the window pixel of window line LY - WY |
| GbGraphics.BgColumn | gameboy/core/graphics.c:382-390 | the background loop starts each tile at a map column that is a multiple of 8, so pixel j of the tile at i is map pixel i + j |
| GbGraphics.BgTileLine | gameboy/core/graphics.c:387-453 | a background tile fetched at column i holds the background line's pixels i..i+7 |
| GbGraphics.BgLineAt | gameboy/core/graphics.c:433-452 | pixel j of the tile at column i is column i + j of the background line |
| GbGraphics.WindowTileLine | gameboy/core/graphics.c:291-363 | a window tile fetched at column i holds the window line's pixels i..i+7 |
| GbGraphics.WindowLineAt | gameboy/core/graphics.c:347-362 | pixel j of the window tile at column i is column i + j of the window line |
| GbGraphics.TileStart | gameboy/core/graphics.c:382-387 | tile k of the background loop starts at a multiple of 8 in the map |
| GbGraphics.WindowStart | gameboy/core/graphics.c:288-291 | tile k of the window loop starts at the edge minus a multiple of 8 |
| GbGraphics.WindowTiles | gameboy/core/graphics.c:295-302 | no window tile starts less than 8 columns left of the edge, so a tile is wholly left of it or starts at or right of it |
| GbGraphics.TileLine | gameboy/core/graphics.c:433-452 | the 8 pixels of a fetched tile line, leftmost first |
| GbGraphics.WindowColumn | gameboy/core/graphics.c:304-306 | pixel j of a window tile at column i is window column i + j - edge |
| GbGraphics.BgDrawn | gameboy/core/graphics.c:369-456 | draw_tile_bg_row keeps the frame well formed |
| GbGraphics.WindowDrawn | gameboy/core/graphics.c:264-366 | draw_tile_window_row keeps the frame well formed |
| GbGraphics.BgRowDone | gameboy/core/graphics.c:369-456 | a row written over columns 0..159 with the background line is the background drawn; priorities only in colour mode |
| GbGraphics.WindowRowDone | gameboy/core/graphics.c:264-366 | a row written from the edge to 159 with the window line is the window drawn |
| GbGraphics.WindowTileIndex | gameboy/core/graphics.c:275-306 | the window map row and column under a visible window pixel lie inside the map |
| GbGraphics.SpritesDrawn | gameboy/core/graphics.c:131-259 | draw_sprite_row keeps the frame well formed and the priorities as they were |
| GbGraphics.SpritesRowDone | gameboy/core/graphics.c:131-259 | the row after the sprite loop is the sprites drawn |
| GbGraphics.TileSet | gameboy/core/graphics.c:465 | LCDC bit 4 selects tile set 0, otherwise tile set 1 |
| GbGraphics.BgMap | gameboy/core/graphics.c:470 | LCDC bit 3 selects the background map |
| GbGraphics.WindowMap | gameboy/core/graphics.c:475 | LCDC bit 6 selects the window map |
| GbGraphics.TileRowDrawn | gameboy/core/graphics.c:458-478 | draw_tile_row keeps the frame well formed |
| GbGraphics.TileRowOnly | gameboy/core/graphics.c:458-478 | drawing tiles or sprites changes only line LY |
| GbGraphics.WindowColumns | gameboy/core/graphics.c:458-478 | with the window on the line, columns left of its edge show the background and the others the window; with its edge or WY off screen the line is the background alone |
| GbGraphics.BgColumnShown | gameboy/core/graphics.c:369-456 | after the background pass column c of line LY is the background pixel of column c |
| GbGraphics.OverlayColumn | gameboy/core/graphics.c:264-366 | the window pass keeps the columns left of the edge and writes the window line from it on |
| GbGraphics.PaintedOverlay | gameboy/core/graphics.c:434-452 | writing the columns one by one is replacing them in the line |
| GbGraphics.RowDrawn | gameboy/core/graphics.c:487-505 | draw_row draws tiles, then sprites over them, keeping the frame well formed |
| GbGraphics.RowDrawnOnly | gameboy/core/graphics.c:487-505 | with the screen off (LCDC bit 7 clear) nothing is drawn; with it on only line LY can change |
| GbRenderer.Renderer.constructor | gameboy/core/graphics.c:47-64 | init_gfx: the buffers cleared and both palette tables refreshed from palette memory when it starts dirty |
| GbRenderer.Renderer.RefreshBgPalettes | gameboy/core/graphics.c:74-86 | when dirty, the rendered background table is rebuilt from palette memory and the flag cleared; otherwise nothing changes |
| GbRenderer.Renderer.RefreshSpritePalettes | gameboy/core/graphics.c:88-100 | the same for the sprite table |
| GbRenderer.Renderer.DrawPixel | gameboy/core/graphics.c:442-450 | one tile pixel written at column c, with the priority only in colour mode |
| GbRenderer.Renderer.DrawTileLine | gameboy/core/graphics.c:433-453 | the inner loop writes the 8 pixels of a tile line where they fall on screen |
| GbRenderer.Renderer.DrawBgTile | gameboy/core/graphics.c:387-455 | one iteration of the background loop extends the written part of the background line by 8 columns |
| GbRenderer.Renderer.DrawTileBgRow | gameboy/core/graphics.c:369-456 | draw_tile_bg_row leaves the frame BgDrawn gives |
| GbRenderer.Renderer.DrawBgTiles | gameboy/core/graphics.c:387-455 | the background loop writes the whole line |
| GbRenderer.Renderer.DrawWindowTile | gameboy/core/graphics.c:304-363 | a window tile at or right of the edge is written |
| GbRenderer.Renderer.DrawWindowStep | gameboy/core/graphics.c:291-364 | one iteration of the window loop skips a tile wholly left of the edge and writes one at or right of it |
| GbRenderer.Renderer.DrawWindowTiles | gameboy/core/graphics.c:288-364 | the window loop, from column -skew in steps of 8, writes the window line from the edge to the end of the row and nothing left of it |
| GbRenderer.Renderer.DrawWindowColumn | gameboy/core/graphics.c:291-364 | iteration k of the window loop, at column 8k - skew, extends the written part of the window line by 8 columns |
| GbRenderer.Renderer.DrawTileWindowRow | gameboy/core/graphics.c:264-366 | draw_tile_window_row leaves the frame WindowDrawn gives |
| GbRenderer.Renderer.DrawSpritePixel | gameboy/core/graphics.c:220-256 | one sprite pixel drawn when on screen and the priority rules let it through |
| GbRenderer.Renderer.DrawSpriteLine | gameboy/core/graphics.c:175-257 | the 8 pixels of one selected sprite, left to right |
| GbRenderer.Renderer.DrawSelected | gameboy/core/graphics.c:174-258 | one iteration of the drawing loop draws the sprite k places from the end of the selection |
| GbRenderer.Renderer.DrawSprites | gameboy/core/graphics.c:153-258 | the selected sprites drawn from the last to the first, leaving the frame SpritesDrawn gives |
| GbRenderer.Renderer.DrawSpriteRow | gameboy/core/graphics.c:131-259 | draw_sprite_row refreshes the sprite palettes and draws the sprites |
| GbRenderer.Renderer.DrawTileRow | gameboy/core/graphics.c:458-478 | draw_tile_row refreshes the background palettes, draws the background and then the window when LCDC bit 5 is set and WY <= LY |
| GbRenderer.Renderer.DrawRow | gameboy/core/graphics.c:487-511 | draw_row draws as RowDrawn gives, refreshes only the palettes of what it draws, and from line 143 on hands the frame to the screen and marks it drawn |
| GbRenderer.Renderer.OffScreen | gameboy/core/graphics.c:436 | a column off screen writes nothing |
| GbRenderer.Renderer.StartLine | gameboy/core/graphics.c:288-291 | while the loop stands left of the first column to write, nothing of the line is written yet |
| GbRenderer.Renderer.EndLine | gameboy/core/graphics.c:387-455 | past the last column the whole line has been written |
| GbRenderer.SelectSprites | gameboy/core/graphics.c:153-172 | the selection loop returns exactly the selected sprites: at most 10, the first crossing LY in list order |
| GbRenderer.SpriteDecision | gameboy/core/graphics.c:229-255 | the priority rules decide the pixel exactly as SpriteDraws states, and in the colour SpriteColour gives |
| GbRenderer.RefreshPalette | gameboy/core/graphics.c:74-86 | when dirty, entry i of the table becomes the converted colour i of palette memory |
| GbEmu.IdleRules | gameboy/core/emu.c:132-147 | a step while halted or stopped feeds 4 cycles (2 at double speed) to the timers first, executes no instruction, keeps the speed, ends a stop exactly when a key is pressed, and without halt never advances the LCD nor changes the frame flag |
| GbEmu.ExecuteRules | gameboy/core/emu.c:148-152 | otherwise exactly one instruction runs, as the first call, with the previous step's skip_bug; the step takes its cycles, the speed is the one the instruction leaves (STOP's KEY1 switch), and the next skip_bug is handle_interrupts' answer |
| GbEmu.SpeedSwitchThenIdle | gameboy/core/emu.c:132-152 | after an instruction that halts, a halted step feeds 2 cycles to the timers and the LCD when that instruction left double speed, and 4 otherwise |
| GbEmu.StepAccount | gameboy/core/emu.c:154-159 | the cycle count stays within 0..15000; the keys are polled exactly when the count would pass 15000, which resets it to 0 and or-s quit with their answer; otherwise the count grows by the step's cycles and quit is unchanged |
| GbEmu.Steps | gameboy/core/emu.c:131-166 | the loop uses no more reactions than given and stops only at a drawn frame or when the reactions run out |
| GbEmu.Frame | gameboy/core/emu.c:128-168 | run_one_frame takes at least one step when it can and returns only with a drawn frame or with the reactions exhausted |
| GbEmu.StepsStopAtFirstFrame | gameboy/core/emu.c:131 | before the step that ends the frame no frame had been drawn: the loop returns at the first drawn frame |
| GbEmu.StepsKeepQuit | gameboy/core/emu.c:157 | quit, once set, is never cleared by any number of steps |
| GbEmu.StepsKeepCycleBound | gameboy/core/emu.c:154-159 | the cycle count stays within 0..15000 over any number of steps |
| GbEmu.RunFrames | gameboy/core/emu.c:184-186 | run's loop ends only once quit is set (or the reactions run out) and does nothing when quit is already set |
| GbEmu.Emulator.constructor | gameboy/core/emu.c:41-113 | the globals start cleared with the step count off; the debug flag is the caller's choice and cgb_features holds exactly for the colour-compatible and colour-only header flags 0x80 and 0xC0 |
| GbEmu.Emulator.AddCurrentCycles | gameboy/core/emu.c:121-124 | the count grows by the extra cycles and every unit is fed them, nothing else changes |
| GbEmu.Emulator.IdleStep | gameboy/core/emu.c:132-147 | the halted-or-stopped branch leaves the state and calls of its specification |
| GbEmu.Emulator.ExecuteStep | gameboy/core/emu.c:148-152 | the executing branch leaves the state and calls of its specification, taking cgb_speed from the instruction as STOP's switch leaves it |
| GbEmu.Emulator.AccountCycles | gameboy/core/emu.c:154-159 | the cycle account leaves the state and key poll of its specification |
| GbEmu.Emulator.HandleInterrupts | gameboy/core/emu.c:160 | skip_bug takes handle_interrupts' answer, which may also end halt |
| GbEmu.Emulator.DebugStep | gameboy/core/emu.c:162-165 | a positive step count is decremented while debugging, and on reaching 0 a command sets the next count |
| GbEmu.Emulator.StepOnce | gameboy/core/emu.c:132-165 | one loop iteration produces exactly the state and calls of one specified step |
| GbEmu.Emulator.RunOneFrame | gameboy/core/emu.c:128-168 | the frame's new state, calls and reactions used are those of Frame |
| GbEmu.Emulator.SetupDebugger | gameboy/core/emu.c:170-178 | only when debugging is a command asked for, and it sets the step count |
| GbEmu.Emulator.Run | gameboy/core/emu.c:180-187 | setup_debug and then frames until quit, with the state and calls of RunFrames |
| GbEmu.Emulator.RunLoop | gameboy/core/emu.c:184-186 | the loop's state, calls and reactions used are those of RunFrames |
| C8Input.InputInit | chip8/c8input.c:10-13 | the input driver needs no setup and always reports success |
| C8Input.InputNext | chip8/c8input.c:15-79 | a key is a keypad key exactly when it is a lower-case hexadecimal digit, and then it is that digit's value; 'z' and Escape, and only they, are the escape key; every other code passes, never an error |
| C8Input.KeypadRoundTrip | chip8/c8input.c:21-69 | each keypad key is reached from its own digit character |
| C8Input.UpperCaseIsPass | chip8/c8input.c:78 | upper-case letters A to F and "no key waiting" are not keypad keys |
| C8Display.Index | chip8/c8display.c:84 | pixel (x, y) of the 64 by 32 screen lies in the buffer |
| C8Display.IndexInverse | chip8/c8display.c:84 | the row-major position determines the pixel: different pixels have different cells |
| C8Display.CellPixel | chip8/c8display.c:72-73 | every cell of the buffer is the position of a pixel |
| C8Display.SetOutcome | chip8/c8display.c:84-116 | setting a pixel is clean exactly when it already has the value; otherwise a failed block transfer is an error that keeps the pixel, and a successful one makes it dirty with the new value |
| C8Display.XorOutcome | chip8/c8display.c:125-158 | drawing a blank pixel never fails and changes nothing; drawing a filled one fails only with its block transfer; the result is the exclusive or, and the status is dirty exactly when a filled pixel was cleared |
| C8Display.FlipOutcome | chip8/c8display.c:167-194 | inverting always transfers a block; on success the pixel changes and the status is dirty, on failure it is an error and the pixel is kept |
| C8Display.XorTwiceRestores | chip8/c8display.c:125-158 | drawing the same value twice by exclusive or restores the pixel |
| C8Display.SetIdempotent | chip8/c8display.c:84-85 | setting a pixel to the value it already has is clean and leaves it |
| C8Display.FlipTwiceRestores | chip8/c8display.c:167-194 | inverting twice restores the pixel |
| C8Display.Display.constructor | chip8/c8display.c:13-19 | the static buffer starts blank and no graphics output is known |
| C8Display.Display.Clear | chip8/c8display.c:63-76 | a failed console clear is an error leaving the buffer; otherwise every cell becomes blank |
| C8Display.Display.Init | chip8/c8display.c:21-61 | with an output already known it only clears; otherwise the output is known after a successful locate and handle lookup, and the result is OK exactly when locate, handle, reset, cursor and clear all succeed, with the buffer blank then and untouched on the failures before the clear |
| C8Display.Display.PxSet | chip8/c8display.c:78-117 | off-screen coordinates or no output give an error and no change; otherwise the one cell at (x, y) takes SetOutcome's value and the status is SetOutcome's |
| C8Display.Display.PxXor | chip8/c8display.c:119-159 | the same for drawing by exclusive or, with XorOutcome |
| C8Display.Display.PxFlip | chip8/c8display.c:161-195 | the same for inversion, with FlipOutcome |
| C8Opcodes.Word | chip8/c8interpreter.c:3-11 | the word read at the program counter has the first byte as its high byte and the second as its low byte |
| C8Opcodes.CanonicalInstance | chip8/c8opcodes.h:3-40 | every word whose fixed bits are those of a form reaches that form's handler, as the stricter-mask-first order promises; 0NNN only when neither the clear-screen nor the return mask already covers the word |
| C8Opcodes.ClearAndReturn | chip8/c8interpreter.c:417-424 | every word within the bits 0x00E0, 0x0000 included, clears the screen, and 0x00EE returns |
| C8Opcodes.MalformedSkipIsAdd | chip8/c8opcodes.h:13-15 | a 5XY? word with a nonzero low nibble is taken by the looser 7XNN mask and executes as an add |
| C8Opcodes.MalformedSkipIsJump | chip8/c8opcodes.h:25-27 | a 9XY? word with an odd low nibble is taken by the BNNN mask and executes as a jump |
| C8Opcodes.UncoveredStops | chip8/c8interpreter.c:427-428 | a word no mask covers, for instance 0xF0FF, stops execution |
| C8Opcodes.ArithFamily | chip8/c8opcodes.h:16-24 | within the 8XY? family only the low nibble chooses the handler: the eight arithmetic forms by their own nibble, the shift left for the other even nibbles and a load of I for the odd ones |
| C8Opcodes.MiscFamily | chip8/c8opcodes.h:32-40 | within the FX?? family only the low byte chooses the handler, or stops execution when no FX?? mask covers it |
| C8Sprite.DrawFrom | chip8/c8interpreter.c:221-233 | the pixel loop keeps the 64 by 32 buffer and fails exactly when it would read a sprite row beyond memory |
| C8Sprite.Draw | chip8/c8interpreter.c:213-236 | DXYN's drawing fails exactly when a sprite of at least one row extends beyond memory |
| C8Sprite.DrawFromCell | chip8/c8interpreter.c:221-233 | from any row and bit on, the corrected loop (VX and VY read once, after VF is cleared) flips exactly the on-screen pixels it still covers and leaves every other cell as it was; for X and Y other than F these are the C loop's pixels |
| C8Sprite.DrawFromFlag | chip8/c8interpreter.c:221-233 | from any row and bit on, the corrected loop's collision flag is the flag so far or-ed with whether a pixel it still covers was filled; the C loop instead overwrites VF at each lit pixel (DrawFromAsWritten) |
| C8Sprite.DrawSpec | chip8/c8opcodes.h:29 | drawing a sprite flips exactly the pixels whose sprite row has the bit for their column set (column VX + 7 - b for bit b), and VF becomes 1 exactly when one of them was filled |
| C8Sprite.DrawTwiceRestores | chip8/c8opcodes.h:29 | drawing the same sprite twice at the same place restores the screen |
| C8Sprite.DrawOnBlankNoCollision | chip8/c8opcodes.h:29 | a sprite drawn on a blank screen never reports a collision |
| C8Sprite.DrawFromAsWritten | chip8/c8interpreter.c:215-233 | the loop as the code has it: coordinates re-read from VX and VY at every pixel after VF was cleared, and VF overwritten after each set bit with that pixel's status alone; it keeps the buffer and register sizes and fails exactly beyond memory |
| C8Sprite.CollisionLostAsWritten | chip8/c8interpreter.c:225-231 | the row 0x03 drawn at (0, 0) over a screen whose only filled pixel is (7, 0) clears that pixel, but the code as written leaves VF at 0 while the promised drawing reports the collision |
| C8Sprite.AsWrittenKeepsRegisters | chip8/c8interpreter.c:219-233 | the C pixel loop never faults on a sprite inside memory and writes no register other than VF |
| C8Sprite.AsWrittenSameScreen | chip8/c8interpreter.c:219-233 | with X and Y other than F, the C pixel loop leaves exactly the screen the corrected drawing leaves, so the two differ only in VF |
| C8Machine.Wrap16 | chip8/c8interpreter.c:20 | a store to a 16-bit field keeps its value modulo 2^16, and a value already in range unchanged |
| C8Machine.StoreRegs | chip8/c8interpreter.c:318-321 | exactly the bytes I..I+X take V0..VX, in order, and every other byte is kept |
| C8Machine.LoadRegs | chip8/c8interpreter.c:331-334 | exactly V0..VX take the bytes I..I+X, in order, and the other registers are kept |
| C8Machine.Tick | chip8/c8interpreter.c:399-402 | a zero timer stays zero and a nonzero one goes down by exactly one |
| C8Machine.AluFlag | chip8/c8interpreter.c:135-189 | the flag an arithmetic opcode leaves in VF is 0 or 1 |
| C8Machine.Timers | chip8/c8interpreter.c:397-403 | the timer step changes nothing but the two timers |
| C8Machine.Tally | chip8/c8interpreter.c:394-403 | one beep is counted exactly when the sound timer is nonzero, and nothing but the beeps and the timers changes |
| C8Machine.Step | chip8/c8interpreter.c:417-428 | fetching and executing keeps a well-formed state and never by itself ends the loop with a status; DXYN words run the corrected drawing of "## Findings" |
| C8Machine.Cycle | chip8/c8interpreter.c:374-429 | an iteration that goes on leaves a well-formed state; its DXYN is the corrected drawing |
| C8Machine.Run | chip8/c8interpreter.c:374-429 | the loop over any inputs that goes on leaves a well-formed state; its DXYN is the corrected drawing |
| C8Machine.Load | chip8/c8interpreter.c:358-363 | a file read copies its bytes to memory from its address on and keeps every other byte |
| C8Machine.Reset | chip8/c8interpreter.c:344-352 | initialisation starts from PC = I = 512, an empty stack and normal execution |
| C8Machine.Init | chip8/c8interpreter.c:342-366 | a state that initialisation reports ready is well formed |
| C8MachineProps.SkipRule | chip8/c8interpreter.c:47-85 | a skip moves PC on by four exactly when its condition holds and by two otherwise, never fails, and changes nothing else but the latched key, which only a matching key test resets |
| C8MachineProps.StraightAdvances | chip8/c8interpreter.c:87-338 | every opcode that neither jumps, calls, returns nor skips moves PC on by exactly one instruction when it completes and leaves the stack alone |
| C8MachineProps.CallThenReturn | chip8/c8interpreter.c:23-45 | a call fails only on a full stack and a return only on an empty one; a call then a return resumes after the call with the stack depth and contents restored |
| C8MachineProps.ArithRegisters | chip8/c8interpreter.c:135-189 | with X and Y other than F, an arithmetic opcode leaves its flag in VF and its result from the old VX and VY in VX, and changes no other register |
| C8MachineProps.AddCarry | chip8/c8interpreter.c:135-145 | 8XY4 leaves the full nine-bit sum in VF and VX together |
| C8MachineProps.SubBorrow | chip8/c8interpreter.c:147-157 | 8XY5 leaves VX - VY modulo 256, and VF = 1 exactly when VX >= VY |
| C8MachineProps.ReverseSubBorrow | chip8/c8interpreter.c:170-180 | 8XY7 leaves VY - VX modulo 256, and VF = 1 exactly when VY >= VX |
| C8MachineProps.ShiftRight | chip8/c8interpreter.c:159-168 | 8XY6 halves VX itself, not VY, and keeps the bit shifted out in VF |
| C8MachineProps.ShiftLeft | chip8/c8interpreter.c:182-189 | 8XYE doubles VY modulo 256 into VX and keeps the bit shifted out of VY in VF |
| C8MachineProps.ByteDigits | chip8/c8interpreter.c:308-310 | the hundreds, tens and units of a byte are decimal digits whose weighted sum is the byte |
| C8MachineProps.DecimalDigits | chip8/c8interpreter.c:305-312 | FX33 writes the three decimal digits of VX, most significant first, at I, I + 1 and I + 2 and no other byte |
| C8MachineProps.StoreLoadRoundTrip | chip8/c8interpreter.c:314-338 | loading back what was stored gives V0..VX again, and storing what was loaded leaves memory as it was |
| C8MachineProps.BlockStoreLoad | chip8/c8interpreter.c:314-338 | FX55 then FX65 over the same block gives V0..VX their values again; both leave I just past the block |
| C8MachineProps.TimersCountDown | chip8/c8interpreter.c:397-403 | on every rate-th cycle both timers tick down together, never below zero, and otherwise nothing changes |
| C8MachineProps.KeyWait | chip8/c8interpreter.c:405-415 | a waiting interpreter without a latched key only runs the timers and keeps waiting at the same PC; with a keypad key it stores the key in the register FX0A named and resumes at the same PC |
| C8MachineProps.AwaitKey | chip8/c8interpreter.c:269-275 | FX0A makes the loop wait past it: no key keeps it waiting, and the first keypad key lands in VX and resumes execution |
| C8MachineProps.UnknownOpcodeHalts | chip8/c8interpreter.c:427-428 | a word no table row covers stops the interpreter, and the next iteration not ended by Escape returns the execution-failed status |
| C8MachineProps.DrawCollision | chip8/c8interpreter.c:213-236 | with X and Y other than F, the machine's corrected DXYN fails only when the sprite runs past memory, sets VF = 1 exactly when a covered pixel was filled, keeps V0..VE and flips exactly the covered pixels (the C loop leaves VF at the last lit pixel's status, as "## Findings" records) |
| C8MachineProps.RunAppend | chip8/c8interpreter.c:374-429 | running over two input sequences one after the other is running over their concatenation, and an exit or crash ends the run |
| C8Interpreter.ShiftedBit | chip8/c8interpreter.c:225 | the handler's test `((row >> b) & 1) == 1` is bit b of the sprite row |
| C8Interpreter.Interpreter.constructor | chip8/c8interpreter.c:342 | the state record starts zeroed, with the static display it draws on |
| C8Interpreter.Interpreter.LoadBytes | chip8/c8interpreter.c:358-363 | a file's bytes are copied to memory from its address on, every other byte kept |
| C8Interpreter.Interpreter.Init | chip8/c8interpreter.c:342-366 | the registers are reset, then each failed read is the init-failed status; a read longer than the memory left is an overrun; otherwise the state is the model's initial state |
| C8Interpreter.Interpreter.Interpret00E0 | chip8/c8interpreter.c:17-21 | 00E0: the console and then the buffer are cleared; the new state is exactly the model's 00E0 handler's |
| C8Interpreter.Interpreter.Interpret00EE | chip8/c8interpreter.c:23-26 | 00EE: PC is popped from the stack; `fault` is a pop from the empty stack; the new state is the model's 00EE handler's, and `fault` holds exactly when the model faults |
| C8Interpreter.Interpreter.Interpret0NNN | chip8/c8interpreter.c:28-32 | 0NNN, a machine-code call, stops the interpreter; the new state is exactly the model's 0NNN handler's |
| C8Interpreter.Interpreter.Interpret1NNN | chip8/c8interpreter.c:34-38 | 1NNN: a jump to NNN; the new state is exactly the model's 1NNN handler's |
| C8Interpreter.Interpreter.Interpret2NNN | chip8/c8interpreter.c:40-45 | 2NNN: the address after the call is pushed and PC set to NNN; `fault` is a push on the full stack; the new state is the model's 2NNN handler's, and `fault` holds exactly when the model faults |
| C8Interpreter.Interpreter.InterpretBNNN | chip8/c8interpreter.c:198-202 | BNNN: a jump to NNN + V0; the new state is exactly the model's BNNN handler's |
| C8Interpreter.Interpreter.Interpret3XNN | chip8/c8interpreter.c:47-55 | 3XNN: the next instruction is skipped when VX equals NN; the new state is exactly the model's 3XNN handler's |
| C8Interpreter.Interpreter.Interpret4XNN | chip8/c8interpreter.c:57-65 | 4XNN: the next instruction is skipped when VX differs from NN; the new state is exactly the model's 4XNN handler's |
| C8Interpreter.Interpreter.Interpret5XY0 | chip8/c8interpreter.c:67-75 | 5XY0: the next instruction is skipped when VX equals VY; the new state is exactly the model's 5XY0 handler's |
| C8Interpreter.Interpreter.Interpret9XY0 | chip8/c8interpreter.c:77-85 | 9XY0: the next instruction is skipped when VX differs from VY; the new state is exactly the model's 9XY0 handler's |
| C8Interpreter.Interpreter.InterpretEX9E | chip8/c8interpreter.c:238-248 | EX9E: the next instruction is skipped when the latched key is VX, and the key is consumed; the new state is exactly the model's EX9E handler's |
| C8Interpreter.Interpreter.InterpretEXA1 | chip8/c8interpreter.c:250-260 | EXA1: the next instruction is skipped unless the latched key is VX, which is then consumed; the new state is exactly the model's EXA1 handler's |
| C8Interpreter.Interpreter.Interpret6XNN | chip8/c8interpreter.c:87-93 | 6XNN: VX := NN; the new state is exactly the model's 6XNN handler's |
| C8Interpreter.Interpreter.Interpret7XNN | chip8/c8interpreter.c:95-101 | 7XNN: VX := VX + NN modulo 256, VF untouched; the new state is exactly the model's 7XNN handler's |
| C8Interpreter.Interpreter.Interpret8XY0 | chip8/c8interpreter.c:103-109 | 8XY0: VX := VY; the new state is exactly the model's 8XY0 handler's |
| C8Interpreter.Interpreter.Interpret8XY1 | chip8/c8interpreter.c:111-117 | 8XY1: VX := VX or VY; the new state is exactly the model's 8XY1 handler's |
| C8Interpreter.Interpreter.Interpret8XY2 | chip8/c8interpreter.c:119-125 | 8XY2: VX := VX and VY; the new state is exactly the model's 8XY2 handler's |
| C8Interpreter.Interpreter.Interpret8XY3 | chip8/c8interpreter.c:127-133 | 8XY3: VX := VX xor VY; the new state is exactly the model's 8XY3 handler's |
| C8Interpreter.Interpreter.InterpretANNN | chip8/c8interpreter.c:191-196 | ANNN: I := NNN; the new state is exactly the model's ANNN handler's |
| C8Interpreter.Interpreter.InterpretCXNN | chip8/c8interpreter.c:204-211 | CXNN: VX := the low byte of cycle / 100, and NN; the new state is exactly the model's CXNN handler's |
| C8Interpreter.Interpreter.InterpretFX07 | chip8/c8interpreter.c:262-267 | FX07: VX := the delay timer; the new state is exactly the model's FX07 handler's |
| C8Interpreter.Interpreter.InterpretFX0A | chip8/c8interpreter.c:269-275 | FX0A: the loop is made to wait for a key for VX; the new state is exactly the model's FX0A handler's |
| C8Interpreter.Interpreter.InterpretFX15 | chip8/c8interpreter.c:277-282 | FX15: the delay timer := VX; the new state is exactly the model's FX15 handler's |
| C8Interpreter.Interpreter.InterpretFX18 | chip8/c8interpreter.c:284-289 | FX18: the sound timer := VX; the new state is exactly the model's FX18 handler's |
| C8Interpreter.Interpreter.InterpretFX1E | chip8/c8interpreter.c:291-296 | FX1E: I := I + VX modulo 2^16; the new state is exactly the model's FX1E handler's |
| C8Interpreter.Interpreter.InterpretFX29 | chip8/c8interpreter.c:298-303 | FX29: I := 5 VX, the address of the font glyph of digit VX; the new state is exactly the model's FX29 handler's |
| C8Interpreter.Interpreter.InterpretFX33 | chip8/c8interpreter.c:305-312 | FX33: the decimal digits of VX at I, I + 1 and I + 2; `fault` is a byte beyond memory; the new state is the model's FX33 handler's, and `fault` holds exactly when the model faults |
| C8Interpreter.Interpreter.InterpretFX55 | chip8/c8interpreter.c:314-325 | FX55: V0..VX are stored from I on, and I is left just past them; `fault` is a byte beyond memory; the new state is the model's FX55 handler's, and `fault` holds exactly when the model faults |
| C8Interpreter.Interpreter.InterpretFX65 | chip8/c8interpreter.c:327-338 | FX65: V0..VX are loaded from I on, and I is left just past them; `fault` is a byte beyond memory; the new state is the model's FX65 handler's, and `fault` holds exactly when the model faults |
| C8Interpreter.Interpreter.InterpretDXYN | chip8/c8interpreter.c:213-236 | the corrected DXYN of "## Findings": VF is cleared, the sprite drawn at the coordinates VX and VY then hold, and VF set when any pixel was cleared. `fault` is a row read beyond memory; the new state is the model's DXYN handler's, and `fault` holds exactly when the model faults |
| C8Interpreter.Interpreter.InterpretFlow | chip8/c8interpreter.c:17-45 | the control-flow handlers have exactly the model's effect and fault |
| C8Interpreter.Interpreter.InterpretSkip | chip8/c8interpreter.c:47-85 | the conditional skips have exactly the model's effect |
| C8Interpreter.Interpreter.InterpretLoad | chip8/c8interpreter.c:87-133 | the register loads and logic operations have exactly the model's effect |
| C8Interpreter.Interpreter.InterpretArith | chip8/c8interpreter.c:135-189 | 8XY4 to 8XY7 and 8XYE write VF first and then VX from the registers as they are after that, exactly as the model |
| C8Interpreter.Interpreter.InterpretMisc | chip8/c8interpreter.c:262-303 | the timer, key-wait and I handlers have exactly the model's effect |
| C8Interpreter.Interpreter.InterpretMem | chip8/c8interpreter.c:305-338 | the memory-block handlers have exactly the model's effect and fault |
| C8Interpreter.Interpreter.DrawPixel | chip8/c8interpreter.c:225-231 | one pass of the inner pixel loop draws a set bit at column VX + 7 - b by exclusive or and reports whether it cleared a filled pixel, as the model's pixel step |
| C8Interpreter.Interpreter.DrawSprite | chip8/c8interpreter.c:221-233 | the two nested pixel loops, with the coordinates fixed and the collisions or-ed as the corrected DXYN has them, leave the model's drawing and collision flag, and fault exactly when a row lies beyond memory |
| C8Interpreter.Interpreter.Execute | chip8/c8interpreter.c:417-424 | the handler chosen for the decoded instruction has exactly the model's effect, and faults exactly where the model does; DXYN is the corrected drawing |
| C8Interpreter.Interpreter.Interpret | chip8/c8interpreter.c:417-428 | fetching, matching against the table and executing reflects the model's step, an unknown word stopping the interpreter; DXYN is the corrected drawing |
| C8Interpreter.Interpreter.DeliverOrExecute | chip8/c8interpreter.c:405-428 | a waiting interpreter gets the latched key, if any, and otherwise the next instruction runs, as the model's step (with the corrected DXYN) |
| C8Interpreter.Interpreter.SoundAndTimers | chip8/c8interpreter.c:394-403 | a beep while the sound timer runs, then the timers tick on every rate-th cycle, as the model |
| C8Interpreter.Interpreter.Proceed | chip8/c8interpreter.c:388-428 | a stopped interpreter returns execution-failed; otherwise sound, timers, then key delivery or execution, as the model (with the corrected DXYN) |
| C8Interpreter.Interpreter.Iteration | chip8/c8interpreter.c:376-428 | one iteration: the cycle count advances, Escape returns OK, a keypad key is latched, then the rest, exactly as the model's iteration (with the corrected DXYN) |
| C8Interpreter.Interpreter.Loop | chip8/c8interpreter.c:368-432 | the loop over the given inputs ends, goes on or crashes exactly as the model's run over them (with the corrected DXYN) |
| CacheTest.DecodeEvtSel | cachetest/cachetest.h:338-344 | each field read back from an event-select word lies within its width |
| CacheTest.EvtSelRoundTrip | cachetest/cachetest.h:338-344 | the event-select word holds every argument masked to its width at its own bits, with bit 21 (AnyThread) left 0 |
| CacheTest.PerfGlobalCtrl | cachetest/cachetest.h:331-337 | the global control word enables counter 0 by bit 0 and counter 1 by bit 1, and sets no other bit |
| CacheTest.DecodePerfLeaf | cachetest/cachetest.h:405-429 | the version, counter count and width, fixed-counter count and width read from CPUID leaf 0x0A lie within their fields' widths |
| CacheTest.PerfLeafRoundTrip | cachetest/cachetest.h:418-422 | registers holding the fields at their places decode back to exactly those fields, whatever the higher bits hold |
| CacheTest.CacheOffCr0 | cachetest/cachetest.h:222-231 | turning the cache off sets CD (bit 30), clears NW (bit 29) and keeps every other CR0 bit |
| CacheTest.CacheOnCr0 | cachetest/cachetest.h:246-255 | turning the cache on clears CD and NW and keeps every other CR0 bit |
| CacheTest.ResetCacheCr0 | cachetest/cachetest.h:452-457 | a reset, off then on, leaves CR0 as turning the cache on directly does, and turning it on twice is turning it on once |
| CacheTest.Inverted | cachetest/cachetest.h:438-450 | the toggled flag is 0 or 1, and 0 exactly when it was 1 |
| CacheTest.InvertTwice | cachetest/cachetest.h:438-450 | toggling twice restores a flag that was 0 or 1 |
| CacheTest.NextAddress | cachetest/cachetest.h:84 | the stored word is a 32-bit value (the int cast wraps) that differs from the array's address by (i + 1) * 4 modulo 2^32 |
| CacheTest.ChainPointsToNext | cachetest/cachetest.h:78-86 | the word at element i, taken as an offset from the array's address, names element i + 1, and no two elements hold the same word |
| CacheTest.Workload.constructor | cachetest/cachetest.h:48-65 | the flag starts at 1 and the 4000-word array is fresh |
| CacheTest.Workload.InvertCache | cachetest/cachetest.h:438-450 | the menu entry replaces the flag by its toggle |
| CacheTest.Workload.InitArray0 | cachetest/cachetest.h:68-76 | after the loop element i holds i for every i below 4000 |
| CacheTest.Workload.InitArray01 | cachetest/cachetest.h:78-86 | after the loop element i holds the address of element i + 1 |
| DeepinGfxmode.AddMode | deepin_gfxmode/deepin_gfxmode.c:72-83 | after adding, the list holds the mode and exactly the modes it held before, and a list without duplicates stays so |
| DeepinGfxmode.CollectNoDuplicates | deepin_gfxmode/deepin_gfxmode.c:188-199 | the list the hook collects never holds a mode twice |
| DeepinGfxmode.CollectMembers | deepin_gfxmode/deepin_gfxmode.c:193-196 | a mode is collected exactly when it was already listed, or was reported and is the current mode or at least 1024 pixels wide |
| DeepinGfxmode.IndexOf | deepin_gfxmode/deepin_gfxmode.c:155-164 | the index is -1 exactly when the current mode is not listed, and otherwise the position of its first occurrence |
| DeepinGfxmode.NatString | deepin_gfxmode/deepin_gfxmode.c:176 | `%u` gives a non-empty string of decimal digits without a leading zero |
| DeepinGfxmode.NatStringRoundTrip | deepin_gfxmode/deepin_gfxmode.c:176 | reading the digits back gives the number |
| DeepinGfxmode.ModeString | deepin_gfxmode/deepin_gfxmode.c:176 | a mode's text `WxH` holds no comma, so the commas of the joined value are exactly its separators |
| DeepinGfxmode.PiecesCommas | deepin_gfxmode/deepin_gfxmode.c:175-182 | k modes are written with k - 1 separating commas, none trailing |
| DeepinGfxmode.ModeList.constructor | deepin_gfxmode/deepin_gfxmode.c:230-232 | the list starts empty |
| DeepinGfxmode.ModeList.Contains | deepin_gfxmode/deepin_gfxmode.c:62-70 | the answer is yes exactly when the mode is listed |
| DeepinGfxmode.ModeList.Add | deepin_gfxmode/deepin_gfxmode.c:72-83 | the list becomes AddMode of the old one: unchanged when the mode is present, else the mode is prepended |
| DeepinGfxmode.ModeList.Hook | deepin_gfxmode/deepin_gfxmode.c:188-199 | a reported mode is added exactly when it is the current mode or at least 1024 pixels wide |
| DeepinGfxmode.ModeList.Free | deepin_gfxmode/deepin_gfxmode.c:92-100 | every node after the head is released, leaving no mode |
| DeepinGfxmode.StringBuilder.constructor | deepin_gfxmode/deepin_gfxmode.c:103-112 | an empty text in a fresh buffer of the requested capacity, at least 10 |
| DeepinGfxmode.StringBuilder.Grow | deepin_gfxmode/deepin_gfxmode.c:114-123 | a fresh buffer of twice the capacity plus n holds the same text |
| DeepinGfxmode.StringBuilder.WriteChar | deepin_gfxmode/deepin_gfxmode.c:125-133 | the character is appended, the buffer doubling exactly when it was full |
| DeepinGfxmode.StringBuilder.WriteString | deepin_gfxmode/deepin_gfxmode.c:135-143 | the string is appended with a NUL after it, inside the buffer, which grows to twice its capacity plus the string and NUL exactly when they would not fit below it |
| DeepinGfxmode.StringBuilder.CopyAfterText | deepin_gfxmode/deepin_gfxmode.c:141 | the string and its NUL are copied after the text, which is kept |
| DeepinGfxmode.StringBuilder.WriteEntry | deepin_gfxmode/deepin_gfxmode.c:176-181 | one mode's text, then a comma exactly when another node follows |
| DeepinGfxmode.StringBuilder.End | deepin_gfxmode/deepin_gfxmode.c:147-149 | the NUL terminator becomes the last character of the text |
| DeepinGfxmode.FindCurrent | deepin_gfxmode/deepin_gfxmode.c:155-164 | the first loop finds IndexOf: the current mode's first position, or -1 |
| DeepinGfxmode.WriteModes | deepin_gfxmode/deepin_gfxmode.c:175-182 | the second loop appends each mode's text, separated by commas |
| DeepinGfxmode.Join | deepin_gfxmode/deepin_gfxmode.c:151-186 | the joined value is the current index, a comma, then the comma-separated modes, NUL-terminated |
| DeepinGfxmode.Command | deepin_gfxmode/deepin_gfxmode.c:201-241 | for the active adapter the value set is the join of the modes the hook collects, with 0x0 as the current mode when it cannot be queried |
| GrubFm.PadRight | grubfm/fm.c:158 | `%-12s` left-justifies in a field of 12 with spaces and never truncates |
| GrubFm.LastIndex | grubfm/fm.c:206-208 | `grub_strrchr` finds the last occurrence, and nothing exactly when the character is absent |
| GrubFm.FirstIndex | grubfm/fm.c:227 | `grub_strchr` finds the first occurrence, and nothing exactly when the character is absent |
| GrubFm.ChildPath | grubfm/fm.c:148-151 | an item's path is the directory, one '/' (none added when the directory ends in one) and the name |
| GrubFm.EntryItem | grubfm/fm.c:137-193 | "." and "..", and a file that cannot be opened, give no entry, and only they; a directory re-enters the file manager at its path with the dir icon, a file is shown with echo and getkey with the file icon |
| GrubFm.Items | grubfm/fm.c:137-193 | the directory hook adds at most one entry per reported item |
| GrubFm.DotsMakeNoItems | grubfm/fm.c:143-144 | the dot entries contribute nothing, wherever they appear in the listing |
| GrubFm.DirectoriesAllListed | grubfm/fm.c:155-164 | every reported directory other than the dot entries yields exactly one entry |
| GrubFm.Parent | grubfm/fm.c:205-210 | the Back target exists exactly when the path holds a '/'; it is a prefix of the path cut at the last '/' before the final one, or empty when there is none |
| GrubFm.BackSource | grubfm/fm.c:211-214 | the Back entry has a command exactly when the path holds a '/' |
| GrubFm.LastIndexBefore | grubfm/fm.c:206 | in a + c + b, with b free of c, the last c is the one right after a |
| GrubFm.ParentOfChild | grubfm/fm.c:205-210 | the parent of `shown/name/` is `shown` when the name holds no '/' |
| GrubFm.BackFromChild | grubfm/fm.c:148-214 | Back from a directory entered through its entry leads to the directory it was listed in, or to the device menu from a root |
| GrubFm.DevicePath | grubfm/fm.c:227-231 | the path inside the device is the text after the first ')', or the whole name when there is none |
| GrubFm.DirectoryMenu | grubfm/fm.c:195-257 | a directory menu exists exactly when the path holds a '/'; it starts with Back, and holds only Back when the device does not open, no file system is found or the path inside the device is empty |
| GrubFm.DeviceItem | grubfm/fm.c:71-135 | memdisk, proc and python, and devices whose file system is not recognised, give no entry, and only they; a NULL label is a fault, and only it; the rest enter the file manager at the device root with the hdd icon, titled with the device and its label, "NO LABEL" when it is empty |
| GrubFm.DeviceMenu | grubfm/fm.c:259-269 | the device menu faults exactly when some visited device has a NULL label, and otherwise has at most one hdd entry per visited device |
| GrubFm.SkippedNeverListed | grubfm/fm.c:75-78 | no skipped device appears in a device menu that does not fault |
| Pong.Wrap | pong/pong.c:306-307 | a value stored in a 32-bit unsigned variable is kept modulo 2^32, unchanged when already in range |
| Pong.BatBlocksBallMeans | pong/pong.c:146-152 | away from wrap-around, a bat blocks the ball exactly when the ball is in a column next to the bat and between the bat's top row and 10 rows below it |
| Pong.BatUp | pong/pong.c:241-244 | a bat moves up 4 cells, stopping at 0 |
| Pong.BatDown | pong/pong.c:250-252 | a bat moves down 4 cells, stopping at the lowest position |
| Pong.BatStaysOnScreen | pong/pong.c:238-271 | a bat between 0 and the lowest position stays there whichever way it moves, and moves at most 4 cells |
| Pong.Initial | pong/pong.c:207-229 | the ball starts at the centre moving left and down, both scores 0, both bats at the same height centred on the middle row |
| Pong.Key | pong/pong.c:235-271 | a key only moves bats and sets stop, which Escape (and only it) sets |
| Pong.Keys | pong/pong.c:232-272 | the key loop changes only the bats and the stop flag |
| Pong.Hit | pong/pong.c:275-301 | the horizontal rule changes only the ball, its horizontal speed, the scores and stop |
| Pong.Bounce | pong/pong.c:303-304 | the vertical speed reverses exactly when the ball is on the top row or at or below the bottom one, and nothing else changes |
| Pong.Advance | pong/pong.c:306-307 | the move changes only the ball's position |
| Pong.BallRules | pong/pong.c:275-296 | a ball at x = 0 scores for the right player and one at x = width for the left, re-centring it and reversing its horizontal direction; a score reaching 9 stops the game, so every score drawn indexes the ten-digit table |
| Pong.TickKeepsRunning | pong/pong.c:230-311 | a tick of a running game leaves it running or stopped, with no score past 9 |
| Pong.RunKeepsScores | pong/pong.c:230-311 | over a whole game no score passes 9, and the game ends stopped or out of ticks |
| Pong.Pong.constructor | pong/pong.c:201-229 | the game is set up as Initial for the screen size |
| Pong.Pong.ReadKeys | pong/pong.c:232-272 | the key loop of a tick leaves the state Keys gives |
| Pong.Pong.MoveBall | pong/pong.c:273-308 | the ball's move leaves the state Ball gives |
| Pong.Pong.HitBall | pong/pong.c:275-301 | the horizontal rule leaves the state Hit gives |
| Pong.Pong.BounceBall | pong/pong.c:303-304 | the vertical rule leaves the state Bounce gives |
| Pong.Pong.Play | pong/pong.c:230-311 | the game loop leaves the state Run gives over the ticks' keys |
| RaidDump.Disk.constructor | raiddump/raiddump.c:62-84 | a disk is its sectors, its reported size and the sectors whose access fails |
| RaidDump.DeviceOf | raiddump/raiddump.c:64-74 | the device opened for `(name)` is the text strictly inside the parentheses |
| RaidDump.Validate | raiddump/raiddump.c:20-60 | the arguments are accepted exactly when there are two, or three with "sample" last, neither is "(mem)" and both are parenthesised device names; too few or too many is the argument-count error |
| RaidDump.Extent | raiddump/raiddump.c:116-125 | the copy stops at the first sector whose read from the source or write to the target fails, or at the copy length; every sector before it was accessible on both |
| RaidDump.CopyLength | raiddump/raiddump.c:104-107 | the copy length is the source's size, or 20480 sectors in sample mode whatever the size |
| RaidDump.Command | raiddump/raiddump.c:13-135 | a copy is reported only for valid arguments, with 512 bytes written per sector copied |
| RaidDump.UnknownSizeCopiesNothing | raiddump/raiddump.c:83-102 | an unknown size on either device is reported as such and nothing is copied |
| RaidDump.CopySectors | raiddump/raiddump.c:112-125 | the loop copies sector j of the source to sector j of the target for every sector up to Extent, leaves the rest of the target as it was, and counts 512 bytes per sector |
| RaidDump.RaidDumpCommand | raiddump/raiddump.c:13-135 | the command reports Command's outcome; after a copy the target holds the source's first sectors and its own beyond them, and no other disk changes |
| S0Enabler.Le32 | s0ix/s0enabler.c:48 | a little-endian 32-bit field read from the table is below 2^32 |
| S0Enabler.Le64 | s0ix/s0enabler.c:53 | a little-endian 64-bit XSDT entry is below 2^64 |
| S0Enabler.EntryCount | s0ix/s0enabler.c:48-49 | the entry count is the length past the 36-byte header divided by 8, and negative for a length below the header, since the 64-bit difference wraps and is truncated to an int |
| S0Enabler.ByteChecksum | s0ix/s0enabler.c:63 | the byte checksum is the sum of the first n bytes modulo 256 |
| S0Enabler.SumUpdate | s0ix/s0enabler.c:62-63 | changing one byte among the summed ones changes the sum by the difference, and one past them not at all |
| S0Enabler.WithS0Idle | s0ix/s0enabler.c:59 | setting bit 21 of Flags with a bitwise OR sets it, keeps every other bit, and changes nothing when the bit was already set |
| S0Enabler.Patch | s0ix/s0enabler.c:59-63 | the patched table has the same length and differs at most in the checksum byte and the Flags byte holding bit 21 |
| S0Enabler.SetBitInWord | s0ix/s0enabler.c:59 | setting bit 5 of the third byte of the little-endian Flags field sets bit 21 of Flags |
| S0Enabler.PatchSetsS0Idle | s0ix/s0enabler.c:59 | after the patch Flags has bit 21 (LOW_POWER_S0_IDLE_CAPABLE, section 5.2.9 of the ACPI Specification) set and every other bit kept |
| S0Enabler.PatchChecksum | s0ix/s0enabler.c:62-63 | after the patch the table's bytes up to its length sum to 0 modulo 256, as section 5.2.6 of the ACPI Specification requires |
| S0Enabler.PatchIdempotent | s0ix/s0enabler.c:59-63 | patching a patched table leaves it as it is |
| S0Enabler.Scan | s0ix/s0enabler.c:51-68 | the scan patches the first FADT among the entries, reports no FADT exactly when every entry leads to a readable table that is not one, and otherwise a bad access |
| S0Enabler.Command | s0ix/s0enabler.c:28-69 | no RSDP and a revision below 2 are reported, and only they, as their errors; "Invalid XSDT." is reported exactly when the table a revision 2 RSDP names is readable and its signature is not 'XSDT'; a patch or "FADT not found" happens only through a table signed 'XSDT' that a revision 2 RSDP names |
| S0Enabler.ShortXsdtHasNoEntries | s0ix/s0enabler.c:48-51 | an XSDT shorter than its own header declares no entries, so the command reports that no FADT was found |
| S0Enabler.Contents | s0ix/s0enabler.c:53 | the memory's contents, seen as byte sequences at the same addresses |
| S0Enabler.EnableS0 | s0ix/s0enabler.c:28-69 | the command's outcome is Command's; the FADT found, and only it, holds the patched bytes, and all other memory is unchanged |
| S0Enabler.PatchFadt | s0ix/s0enabler.c:56-65 | the in-place patch leaves the table as Patch gives it |
| Sokoban.Index | sokoban/sokoban.c:150 | a grid position maps to a cell index below 2500 (map[50][50] in row-major order) |
| Sokoban.IndexInjective | sokoban/sokoban.c:150 | two grid positions share a cell exactly when they are equal |
| Sokoban.Offset | sokoban/sokoban.c:529-547 | each direction moves by one step along exactly one axis |
| Sokoban.Load | sokoban/sokoban.c:401-422 | the parse keeps the grid at 2500 cells, and a successful parse ends inside the grid or at its right edge |
| Sokoban.LoadShape | sokoban/sokoban.c:401-424 | a load ends with the row at the number of newlines and the column at the length of the last line; it fails with "map error" exactly when some stored byte would land outside the 50x50 grid |
| Sokoban.RowDestinations | sokoban/sokoban.c:430-438 | a row records at most as many destinations as it has columns |
| Sokoban.RowDestinationsListed | sokoban/sokoban.c:430-438 | a row's list holds exactly the 'X' and 'Q' cells of that row, left to right |
| Sokoban.DestinationsListed | sokoban/sokoban.c:428-438 | the scan records exactly the 'X' and 'Q' cells of the rows x cols rectangle, in row-major order |
| Sokoban.RowPlayerFound | sokoban/sokoban.c:439-446 | a row yields a player position exactly when it has an '@' cell, and it is the last one |
| Sokoban.PlayerFound | sokoban/sokoban.c:428-448 | the player is the last '@' of the rectangle in row-major order; with no '@' the old position is kept |
| Sokoban.Redraw | sokoban/sokoban.c:484-494 | a destination cell that is empty shows 'X', one with a box shows 'Q', and one with anything else keeps it; the redraw never makes or removes a box |
| Sokoban.RedrawIdempotent | sokoban/sokoban.c:484-494 | redrawing a redrawn cell changes nothing |
| Sokoban.Filled | sokoban/sokoban.c:483-495 | redrawing the destinations keeps the grid at 2500 cells |
| Sokoban.FilledCells | sokoban/sokoban.c:483-495 | only destination cells change, and each is redrawn as if once, however often it is listed |
| Sokoban.FillStep | sokoban/sokoban.c:483-495 | one pass of the loop redraws one destination, and whether it holds a box is read from the grid before the loop |
| Sokoban.FilledDestinations | sokoban/sokoban.c:483-499 | after the redraw an empty destination shows 'X' and a boxed one 'Q', and each destination holds a box exactly when it did before |
| Sokoban.Move | sokoban/sokoban.c:549-578 | a wall ahead blocks; an empty cell or destination ahead is walked into, leaving ' ' behind; a box ahead is pushed when the cell beyond is free and blocks otherwise; a blocked move changes nothing |
| Sokoban.BoxCountUpdate | sokoban/sokoban.c:558-572 | overwriting one cell changes the box count by what it removes and what it adds |
| Sokoban.MoveKeepsBoxes | sokoban/sokoban.c:549-578 | a move from a '@' cell facing a known symbol neither makes nor loses a box, and the player stands on '@' again |
| Sokoban.FilledKeepsBoxes | sokoban/sokoban.c:483-495 | redrawing the destinations neither makes nor loses a box |
| Sokoban.Board.Targets | sokoban/sokoban.c:128-129 | the recorded destinations number box_num, and each lies in the grid |
| Sokoban.Board.constructor | sokoban/sokoban.c:124-150 | the static state: a grid of NUL bytes, no rows, columns or destinations, and the player at (0, 0) |
| Sokoban.Board.Parse | sokoban/sokoban.c:401-422 | the grid becomes the parse's cells; success is reported exactly when the parse succeeds, with its row and column |
| Sokoban.Board.ScanCell | sokoban/sokoban.c:432-446 | a destination cell is appended to the list and counted, and an '@' cell becomes the player position |
| Sokoban.Board.RowScan | sokoban/sokoban.c:430-447 | the row's destinations are appended to those already recorded, and the player is the row's last '@' or the one before |
| Sokoban.Board.ScanRow | sokoban/sokoban.c:430-447 | the recorded list grows from the destinations of the first i rows to those of the first i + 1 |
| Sokoban.Board.Scan | sokoban/sokoban.c:423-448 | rows and cols are set, the recorded destinations are those of the rectangle, and the player is its last '@' or the old position |
| Sokoban.Board.LoadMap | sokoban/sokoban.c:395-451 | a successful load sets rows to the newline count plus one, cols to the last line's length, and records the destinations and player; on a map error the grid keeps the bytes stored so far and all else keeps its value; a level with more than 10 destinations, which would overflow x_pos and y_pos, is reported as DestinationOverflow exactly then, with rows and cols set and nothing recorded |
| Sokoban.Board.Fill | sokoban/sokoban.c:477-500 | the grid becomes its destinations redrawn, and the win is reported exactly when every destination held a box |
| Sokoban.Board.Play | sokoban/sokoban.c:514-592 | the player and grid follow the move rule; after a move the destinations are redrawn, and a win is reported exactly when the move happened and every destination holds a box; a move that would read the cell ahead, or the cell beyond a box, outside the 50x50 grid is reported as OutOfGrid exactly then and changes nothing |

## Left out

- gameboy memory: `get_mem`/`set_mem`, `io_mem`, VRAM and OAM are a plain 64 KiB byte space, with the I/O registers as its top page. The MMU and the MBC1/3/5 controllers are not part of this model, and neither are the side effects of writes to I/O registers.
- KEY1 (the speed-switch register): memory_layout.h is not part of this model. The model takes KEY1 at 0xFF4D, its documented address.
- Sound and serial: `read_apu` reads 0xFF, serial transfers do nothing, and the cycles handed to these units are only recorded.
- `update_all_cycles`, `raise_interrupt` and `handle_interrupts`: their implementations are not part of this model. Each call is recorded in a trace of counts or effects, and the answers are inputs.
- `invalid_op` only logs; the model treats it as a no-op and drops the log line.
- GbCpuSpec: F is kept as its four flags rather than as a byte. The byte is rebuilt wherever AF is read as a word.
- GbCpuProps.PushThenPop: stated for the pairs PUSH and POP take (BC, DE, HL, AF), not for SP, which no PUSH opcode names.
- GbCpuProps.ExecFeeds: stated at normal speed for opcodes other than STOP and the 0xCB prefix. STOP may switch speed, and the prefixed path is covered by ExtStep.
- GbCpuProps.ExecPc: stated for instructions that are not jumps, calls, returns or restarts. The flow instructions' PC is stated by the branch lemmas instead.
- GbEmu: `init_emu`'s file and header I/O, ROM-title logging and `finalize_emu` are left out. `init_screen` and the debugger are platform calls whose results are inputs.
- GbMbc0: `ROM_banks` is the loaded image. A read at 0x8000, which the guard admits, is one byte past a 32 KB image; the model gives an out-of-range outcome for any byte the image lacks.
- The EFI console, keyboard, GOP blt and `grub_file` calls in every module are inputs or returned values, not performed.
- cachetest: `InitArray1` to `InitArray3`, the array-return helpers, the CPUID/RDMSR/WRMSR/WBINVD and CR0 instructions, the timing loops and all printing are left out. Their operands and results are parameters.
- sokoban: the key loop of `game`, replay, level-file reading and all drawing (`draw_*`, `update_map`) are left out.
- Sokoban.Board.LoadMap: a level with more than 10 destinations makes the C scan write past `x_pos` and `y_pos`, which is undefined behaviour; the model reports DestinationOverflow before the scan instead of modelling the out-of-bounds writes.
- Sokoban.Board.Play: a move whose cell ahead, or the cell beyond a box, lies outside the 50x50 grid makes the C code read `map` out of bounds, which is undefined behaviour; the model reports OutOfGrid and changes nothing.
- pong: drawing, the digit patterns' rendering and the 50 ms sleep are left out.
- deepin_gfxmode: `list_display` only prints, and is left out. The `grow %d` line `string_builder_grow` prints (deepin_gfxmode/deepin_gfxmode.c:122) is dropped. Allocation never fails in the model: the C code does not check the `grub_malloc` results at deepin_gfxmode/deepin_gfxmode.c:78, 109 and 117, so a failed allocation would be written through a NULL pointer.
- grubfm: the human-readable sizes and the icons are inputs; the menu titles are computed. `grubfm_add_menu` would dereference a NULL icon, but every call passes an icon.
- GrubFm.EntryItem: the size shown for a file is read from `file->size` after `grub_file_close(file)` (grubfm/fm.c:179-183), a use after free; the model takes the size text as an input and does not model what the freed handle yields.
- GrubFm.DeviceItem: `grub_strlen` of a NULL label (no `fs_label`, or one that fails) is undefined behaviour in C; the model reports it as a fault (NullLabel) rather than guessing what the firmware does.
- raiddump: a `strdup` that fails for lack of memory is left out.
- s0enabler: `grub_byte_checksum` is not part of this model. It is taken as the byte sum modulo 256, and `grub_machine_acpi_get_rsdpv2` is a parameter.
- c8rom.h is not part of this model. The ROM image is the byte sequence given to `LoadBytes`/`Load`.
- C8Machine.ExecDraw: the machine's DXYN handler is the corrected DXYN of "## Findings" (VX and VY read once after VF is cleared; VF = 1 exactly when some pixel was cleared). The C loop re-reads VX and VY at each lit pixel and overwrites VF with that pixel's status, so VF ends as the last lit pixel's status and, with X or Y equal to F, a coordinate is taken from VF as it changes. C8Sprite.DrawFromAsWritten models that loop.
- C8Machine.Step: DXYN words run C8Machine.ExecDraw, so the step has the corrected DXYN rather than the C loop's.
- C8Machine.Cycle: inherits the corrected DXYN through C8Machine.Step.
- C8Machine.Run: the C loop runs until it exits. The model runs one iteration per element of a finite input sequence, each element holding the key read and the outcome of a console clear, and reports Running when the inputs run out. Its DXYN is the corrected drawing, as C8Machine.Step says.
- C8Sprite.DrawFromCell: states the pixels the corrected loop flips. For X and Y other than F they are the C loop's (C8Sprite.AsWrittenSameScreen); with X or Y equal to F the C loop takes a coordinate from VF as VF changes, which C8Sprite.DrawFromAsWritten models and the corrected loop does not.
- C8Sprite.DrawFromFlag: states the corrected or-ed collision flag, not the C loop's VF, which ends as the last lit pixel's status (C8Sprite.DrawFromAsWritten).
- C8MachineProps.DrawCollision: proves the corrected VF rule about the machine's DXYN; the C code's VF differs as "## Findings" shows (C8Sprite.CollisionLostAsWritten).
- C8Interpreter.Interpreter.InterpretDXYN: implements the corrected DXYN of "## Findings" (VX and VY read once after VF is cleared; VF = 1 exactly when some pixel was cleared). The C loop re-reads VX and VY at each lit pixel and overwrites VF with that pixel's status, so VF ends as the last lit pixel's status and, with X or Y equal to F, a coordinate is taken from VF as it changes. C8Sprite.DrawFromAsWritten models that loop.
- C8Interpreter.Interpreter.DrawSprite: draws at coordinates fixed before the loops and or-s the collisions, as the corrected DXYN does; it does not re-read VX and VY or write VF per pixel.
- C8Interpreter.Interpreter.Execute: its DXYN case is the corrected InterpretDXYN.
- C8Interpreter.Interpreter.Interpret: inherits the corrected DXYN through Execute.
- C8Interpreter.Interpreter.DeliverOrExecute: inherits the corrected DXYN through Interpret.
- C8Interpreter.Interpreter.Proceed: inherits the corrected DXYN through DeliverOrExecute.
- C8Interpreter.Interpreter.Iteration: inherits the corrected DXYN through Proceed.
- C8Interpreter.Interpreter.Loop: equals C8Machine.Run and so has the corrected DXYN.
- GbRomInfo.RamSaveSize: uses the corrected lookup, so RAM size id 5 gives 64 KB. `get_ram_save_size` as written reads one entry past the five-entry table for id 5, which GbRomInfo.IdToRamSaveSizeAsWritten models (see "## Findings").
- C8Display: a failed block transfer inside DXYN is taken as successful. The interpreter's loop methods need the display to be attached, which main.c arranges by calling `display_init` before `interpreter_loop`.
- C8Machine handler functions (`Exec00E0` to `ExecFX65`): their own contracts only keep the state well-formed. Their effects are stated by the lemmas of C8MachineProps and the ensures of the Interpret methods.

## Findings

| source | as written | input that shows it | evidently intended | confidence | as-written member | corrected member |
|---|---|---|---|---|---|---|
| chip8/c8interpreter.c:215-233 | DXYN sets VF to 0 before the loop, then overwrites VF at every lit pixel, so VF ends holding the last lit pixel's collision only | sprite row 0x03 drawn at (0, 0) on a screen whose only filled pixel is (7, 0): bit 0 clears (7, 0), bit 1 then fills (6, 0), and VF ends 0 | VF = 1 exactly when some pixel of the sprite was cleared | not executed | C8Sprite.DrawFromAsWritten with C8Sprite.CollisionLostAsWritten | C8Sprite.Draw with C8Sprite.DrawSpec and C8MachineProps.DrawCollision |
| gameboy/core/rom_info.c:149-156 | `id_to_ram_save_size` finds the id's position but returns `ram_save_sizes[id]`, reading past the five-entry table for id 5 | RAM size id 5 (found at position 4) | return the size at the matching position, 64 KB for id 5 | not executed | GbRomInfo.IdToRamSaveSizeAsWritten with GbRomInfo.RamSaveSizeId5ReadsPastEnd | GbRomInfo.IdToRamSaveSize with GbRomInfo.RamSaveSizeCorrected |
