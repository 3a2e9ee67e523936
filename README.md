# Intel 8080 interpreter core, modelled in Dafny

This project models the interpreter core of a small Intel 8080 emulator written in Rust. The core has seven parts:

- **Byte-pair and flag helpers**: `combine`, `split`, `update_flags`, and the counting loop `parity`.
- **Arithmetic unit**: ADD and ADC into the accumulator, DAD, INX, DCX, INR and DCR.
- **Rotate unit**: the two rotates.
- **Control transfer**: `jmp`, `conditional_jmp`, `call` and `ret`.
- **CPU record and `emulate_op`**: the `State8080` record and the step that fetches one opcode and dispatches it over a partial opcode table.
- **Older standalone interpreter**: `src/emulator.rs`, which duplicates most of the above with small differences.
- **Disassembler**: a table from each opcode byte to its text and instruction length.

The model follows the code as written, quirks included:
- DAD zeroes an overflowing byte instead of wrapping it.
- DCX never leaves 0xFF in the low byte.
- The "right" rotate shifts left.
- RET reads the high byte from `memory[sp]`, so it does not undo CALL.
- Opcode 0x87 runs ADC A, and 0x8E adds memory without the carry.

Each quirk is stated as a lemma.

How the code is modelled:
- **Integer types.** Rust `u8`, `u16` and `usize` are integer subset types.
- **Panics become preconditions.** An out-of-range `Vec` index, reading past the end of memory, and a debug-mode `u16` overflow or underflow all panic in Rust. Each is a `requires`: `CanStep` and `CanExecute` collect them for one step.
- **`&mut` helpers.** The arithmetic and rotate helpers update `&mut u8` registers and the flag struct. Here they are functions that return the new register values and flags, and the caller assigns them.
- **State records.** Each `State8080` is a class with the source's fields. Memory is an `array<u8>`.
- **In-place methods proved against specs.** The methods that update a record in place (`GetAndAdvance`, `GetDouble`, `Jmp`, `ConditionalJmp`, `Call`, `Ret`, `EmulateOp`) are proved equal to functions on the state value (`Machine.State`). The properties are then proved about those functions.
- **Naming.** The step of the newer interpreter is `Emulator.Step`; that of the older one is `OldEmulator.Step`.
- **Memory size.** The driver resizes every program image to 64,000 bytes (`Machine.MEMORY_SIZE`), and the test fixture uses the same size.

## Model

| member | source | states |
|---|---|---|
| Utils.Combine | src/emulator/utils.rs:3-7 | the result's high byte is `upper` and its low byte is `lower` |
| Utils.Split | src/emulator/utils.rs:9-13 | combining the two halves gives back the 16-bit input |
| Utils.SplitCombine | src/emulator/utils.rs:9-13 | splitting a combined pair gives back the pair |
| Utils.CombineSplitExample | src/emulator/utils.rs:57-65 | 0xab, 0xcd combine to 0xabcd, which splits back to 0xab, 0xcd |
| Utils.PopCountLowBits | src/emulator/utils.rs:25-27 | masking to the low `size` bits does not change the count of set bits among them |
| Utils.ParityIgnoresHighBits | src/emulator/utils.rs:22-35 | parity of `size` bits does not depend on any bit at or above `size` |
| Utils.ParityExamples | src/emulator/utils.rs:44-54 | the unit-test values of `parity` (e.g. 0b0100000 over 2 bits is even) |
| Utils.Parity | src/emulator/utils.rs:22-35 | the loop returns true exactly when the low `size` bits hold an even number of ones |
| Utils.UpdateFlags | src/emulator/utils.rs:15-20 | Z iff the low byte is 0; S iff bit 7 of the low byte; CY iff the widened value exceeds 0xFF; P is the even parity of the low byte; AC and PAD unchanged |
| Arithmetic.AddCore | src/emulator/arithmetic.rs:15-19 | new accumulator plus 0x100 when CY is set equals a + value + carry-in; Z, S, P judged on the new accumulator; AC and PAD unchanged |
| Arithmetic.Add | src/emulator/arithmetic.rs:7-9 | accumulator is (a + value) mod 256, CY iff a + value > 0xFF |
| Arithmetic.Adc | src/emulator/arithmetic.rs:11-13 | the same with the incoming carry added |
| Arithmetic.AddIgnoresCarryAdcAddsIt | src/emulator/arithmetic.rs:7-16 | ADD does not depend on CY; ADC equals ADD when CY is clear and gives one more, mod 256, when CY is set |
| Arithmetic.AddSequenceExample | src/emulator/arithmetic.rs:120-160 | adding 0, 1, 1, 200, 202 gives 0, 1, 2, 202, 148 with the flags the unit test checks |
| Arithmetic.Dad | src/emulator/arithmetic.rs:22-38 | only CY is written, set iff HL + BC > 0xFFFF; each byte is its sum, or 0 when that sum exceeds 0xFF |
| Arithmetic.DadIsSumWithoutByteOverflow | src/emulator/arithmetic.rs:22-38 | without a byte overflow, HL becomes exactly HL + BC and CY is clear |
| Arithmetic.DadZeroesOverflowingByte | src/emulator/arithmetic.rs:25-37 | 0x00ff + 0x0002 gives 0x0100, not 0x0101 |
| Arithmetic.Inx | src/emulator/arithmetic.rs:41-57 | the pair becomes (pair + 1) mod 0x10000 |
| Arithmetic.InxExamples | src/emulator/arithmetic.rs:101-118 | 0x0000 to 0x0001, 0x00ff to 0x0100, 0xffff to 0x0000 |
| Arithmetic.Dcx | src/emulator/arithmetic.rs:60-75 | a nonzero low byte is decremented alone; a zero low byte stays 0 and the high byte drops by one mod 256; the low byte is never 0xFF |
| Arithmetic.DcxUndoesInxIff | src/emulator/arithmetic.rs:41-75 | DCX after INX restores the pair if and only if the low byte was not 0xFF |
| Arithmetic.InxUndoesDcxIff | src/emulator/arithmetic.rs:41-75 | INX after DCX restores the pair if and only if the low byte was not 0 |
| Arithmetic.DcxInxCounterexample | src/emulator/arithmetic.rs:62-74 | INX then DCX turns 0x00ff into 0x0000 |
| Arithmetic.Inr | src/emulator/arithmetic.rs:77-81 | value becomes (v + 1) mod 256; Z, S, P on the result; CY iff v was 0xFF; AC and PAD unchanged |
| Arithmetic.InrExamples | src/emulator/arithmetic.rs:162-203 | 0, 1, 2 step up with the flags the unit test checks; 255 becomes 0 with Z, P and CY set |
| Arithmetic.Dcr | src/emulator/arithmetic.rs:83-92 | value becomes (v - 1) mod 256; Z, S, P on the result; CY always clear |
| Arithmetic.DcrZeroExample | src/emulator/arithmetic.rs:88-91 | 0 becomes 0xFF with S and P set, Z and CY clear |
| Logical.RotateLeftWithCarry | src/emulator/logical.rs:3-9 | only CY changes, to bit 7 of the register; bits 6..0 move up one place and bit 0 becomes the old bit 7 |
| Logical.RotateRightWithCarry | src/emulator/logical.rs:11-17 | only CY changes, to bit 0 of the register; the register is shifted left and bit 0 keeps its old value |
| Logical.RotateLeftModulo | src/emulator/logical.rs:3-9 | one rotation doubles the register modulo 0xFF and fixes 0 and 0xFF |
| Logical.RotateLeftTimesModulo | src/emulator/logical.rs:3-9 | n rotations multiply the register by 2^n modulo 0xFF |
| Logical.RotateLeftByteMultipleRestores | src/emulator/logical.rs:3-9 | any multiple of eight rotations restores the register |
| Logical.RotateRightShiftsLeft | src/emulator/logical.rs:13-16 | 0x02 becomes 0x04, and 0x80 and 0x00 give the same result |
| Machine.Initial | src/emulator/mod.rs:41-64 | registers 0, flags clear, pc 0, the given sp, memory the image |
| Machine.State8080.constructor | src/emulator/mod.rs:41-64 | the new record is the initial state with sp 0xf000 |
| Machine.State8080.GetAndAdvance | src/emulator/mod.rs:65-70 | returns memory[pc] and only pc changes, by one |
| Machine.State8080.GetDouble | src/emulator/mod.rs:72-76 | returns memory[pc] + 0x100 * memory[pc + 1] and only pc changes, by two |
| Branch.AfterJmp | src/emulator/branch.rs:27-29 | pc becomes the little-endian word at pc; nothing else changes |
| Branch.AfterConditionalJmp | src/emulator/branch.rs:4-10 | a true condition is exactly JMP; a false one only adds 2 to pc |
| Branch.AfterCall | src/emulator/branch.rs:12-18 | memory[sp-1] is the high and memory[sp-2] the low byte of pc + 2, no other cell changes, sp drops by 2, pc is the jump target |
| Branch.AfterRet | src/emulator/branch.rs:20-25 | pc is memory[sp] * 0x100 + memory[sp+1], sp rises by 2, memory unchanged |
| Branch.RetAfterCallSwapsReturnAddress | src/emulator/branch.rs:13-23 | RET right after CALL restores sp but lands on the return address with its bytes swapped; it lands on the return address iff both bytes are equal |
| Branch.Jmp | src/emulator/branch.rs:27-29 | the in-place update equals `AfterJmp` |
| Branch.ConditionalJmp | src/emulator/branch.rs:4-10 | the in-place update equals `AfterConditionalJmp` |
| Branch.Call | src/emulator/branch.rs:12-18 | the in-place update equals `AfterCall` |
| Branch.Ret | src/emulator/branch.rs:20-25 | the in-place update equals `AfterRet` |
| Disassembler.Table | src/disassembler.rs:9-283 | every entry's length is one plus the operand bytes it prints |
| Disassembler.BytesUsed | src/disassembler.rs:10-280 | every opcode's length is 1, 2 or 3, and is one plus the operand bytes its text prints |
| Disassembler.ThreeByteOpsUseThree | src/disassembler.rs:10-280 | LXI, SHLD, LHLD, STA, LDA, the Jcc, JMP, CALL and the Ccc have length 3 |
| Disassembler.OnlyThreeByteOpsUseThree | src/disassembler.rs:10-280 | no other opcode has length 3 |
| Disassembler.TwoByteOpsUseTwo | src/disassembler.rs:10-280 | MVI, the immediate ALU operations, OUT and IN have length 2 |
| Disassembler.OnlyTwoByteOpsUseTwo | src/disassembler.rs:10-280 | no other opcode has length 2 |
| Disassembler.OtherOpsUseOne | src/disassembler.rs:10-280 | every remaining opcode has length 1 |
| Disassembler.RegisterBlockUsesOne | src/disassembler.rs:78-212 | every opcode from 0x40 to 0xbf has length 1 |
| Disassembler.TableAsWritten | src/disassembler.rs:135-136 | 0x76 reads "MOV    M,M", 0x77 "HLT", and 0x20 and 0xf8 both "RIM" |
| Disassembler.Hex | src/disassembler.rs:3 | the text is lowercase hex digits only |
| Disassembler.HexRoundTrip | src/disassembler.rs:3 | reading the printed digits back gives the number |
| Disassembler.HexWidth | src/disassembler.rs:3 | a number below 16^w prints as exactly w digits |
| Disassembler.OperandText | src/disassembler.rs:10-280 | each operand byte prints as exactly two lowercase hex digits, two digits for an immediate and four for an address |
| Disassembler.Disassemble8080Op | src/disassembler.rs:2-286 | the length is the table's and is 1 to 3; the text starts with four lowercase hex digits that read back as pc, then a space |
| Disassembler.DisassembleReadsOnlyInstruction | src/disassembler.rs:6-11 | the result depends only on buff[pc .. pc + length) |
| Disassembler.AddressOperandIsLittleEndian | src/disassembler.rs:11 | a word operand printed high byte first reads as buff[pc+1] + 0x100 * buff[pc+2] |
| Emulator.IsImplemented | src/emulator/mod.rs:91-183 | the opcodes `emulate_op` has an arm for; every other opcode reaches the skipping arm |
| Emulator.CanExecute | src/emulator/mod.rs:92-181 | the states in which an arm runs without a panic: operand and addressed cells inside memory, no u16 overflow of pc or sp |
| Emulator.CanStep | src/emulator/mod.rs:78-91 | exactly the states where the trace disassembly, the opcode fetch with its u16 pc increment, and the arm do not panic |
| Emulator.Execute | src/emulator/mod.rs:91-184 | the arm for an opcode; memory keeps its size, AC, PAD and int_enable are never written, and an opcode without an arm changes nothing |
| Emulator.Step | src/emulator/mod.rs:78-185 | the fetch then the arm; memory size, AC, PAD and int_enable are kept, and an unknown opcode only advances pc |
| Emulator.EmulateOp | src/emulator/mod.rs:78-185 | the in-place step equals `Step`, the fetch followed by the opcode's arm |
| Emulator.ExecuteLoadAndPair | src/emulator/mod.rs:92-142 | the arms below 0x40 equal `Execute` |
| Emulator.ExecuteAdd | src/emulator/mod.rs:144-157 | the arms 0x77 and 0x80-0x87 equal `Execute` |
| Emulator.ExecuteAdc | src/emulator/mod.rs:158-169 | the arms 0x88-0x8f equal `Execute` |
| Emulator.ExecuteTransfer | src/emulator/mod.rs:171-181 | the jump, CALL and RET arms equal `Execute` |
| Emulator.AddInto | src/emulator/arithmetic.rs:7-19 | only the accumulator and flags change, to `add_core` of the old ones |
| Emulator.UnknownOpcodeOnlyAdvancesPc | src/emulator/mod.rs:183 | an opcode without an arm only adds 1 to pc |
| Emulator.ConditionalJumpsFollowManual | src/emulator/mod.rs:171-181 | JNZ, JZ, JNC, JC, JPO, JPE jump to the operand iff the manual's condition for their CCC field holds, else add 3 to pc |
| Emulator.PcAdvanceMatchesBytesUsed | src/emulator/mod.rs:89-183 | for every implemented opcode except JMP, CALL, RET and a taken jump, pc advances by the disassembler's length |
| Emulator.LxiLoadsLowThenHigh | src/emulator/mod.rs:93-141 | LXI puts the first operand byte in C/E/L and the second in B/D/H, LXI SP sets sp to second * 0x100 + first; pc advances 3 |
| Emulator.StoreWritesOneCell | src/emulator/mod.rs:97-144 | STAX B and MOV M,A write a at BC or HL and change no other cell or register |
| Emulator.LoadReadsPairAddress | src/emulator/mod.rs:117-131 | LDAX B and LDAX D load a from BC or DE, nothing else changes |
| Emulator.Op87IsAdcA | src/emulator/mod.rs:157-169 | 0x87 behaves exactly as 0x8F, giving (2a + CY) mod 256 |
| Emulator.AdcMIgnoresCarry | src/emulator/mod.rs:164-168 | 0x8E gives (a + memory[HL]) mod 256 and its result does not depend on CY |
| Emulator.SetupState | src/emulator/test_utils.rs:3-8 | 64,000 bytes of memory, sp 100, pc 0 |
| Emulator.JmpScenario | src/emulator/branch.rs:36-45 | JMP with operand bytes 0x11, 0x22 lands on 0x2211 |
| Emulator.CallScenario | src/emulator/branch.rs:47-62 | CALL at 0x1234 to 0x2211 leaves 0x12 at 99, 0x37 at 98, sp 98 |
| Emulator.RetScenario | src/emulator/branch.rs:64-78 | RET with 0x11, 0x22 on the stack lands on 0x1122 with sp 102 |
| Emulator.CallThenRetScenario | src/emulator/branch.rs:12-25 | RET at the target of that CALL goes to 0x3712, not 0x1237 |
| Emulator.SkippedOperandRunsAsOpcode | src/emulator/mod.rs:183 | the operand of an unimplemented two-byte MVI A is then run as an opcode |
| OldEmulator.CombineRegisters | src/emulator.rs:174-179 | high byte `upper`, low byte `lower`, and equal to `combine` |
| OldEmulator.UpdateFlags | src/emulator.rs:195-200 | the same flags as the newer `update_flags` |
| OldEmulator.Parity | src/emulator.rs:202-216 | the loop returns true exactly when the low `size` bits hold an even number of ones |
| OldEmulator.AddCore | src/emulator.rs:181-193 | accumulator is (a + value + carry-in) mod 256, and the whole result equals the newer `add_core` |
| OldEmulator.Inx | src/emulator.rs:238-254 | the pair becomes (pair + 1) mod 0x10000, as in the newer `inx` |
| OldEmulator.Inr | src/emulator.rs:256-260 | the same result and flags as the newer `inr` |
| OldEmulator.Dcr | src/emulator.rs:262-266 | for v > 0, v - 1 with CY clear, as in the newer `dcr` |
| OldEmulator.State8080.constructor | src/emulator.rs:30-53 | the new record is the initial state with sp 0 |
| OldEmulator.State8080.GetAndAdvance | src/emulator.rs:54-59 | returns memory[pc] and only pc changes, by one |
| OldEmulator.Jmp | src/emulator.rs:168-172 | the in-place update equals `AfterJmp` |
| OldEmulator.ConditionalJmp | src/emulator.rs:160-166 | the in-place update equals `AfterConditionalJmp` |
| OldEmulator.IsImplemented | src/emulator.rs:65-156 | the opcodes this `emulate_op` has an arm for |
| OldEmulator.CanExecute | src/emulator.rs:66-154 | the states in which an arm runs without a panic; DCR B also needs B > 0 |
| OldEmulator.CanStep | src/emulator.rs:62-65 | the opcode fetch and the arm do not panic; no trace disassembly here |
| OldEmulator.Execute | src/emulator.rs:65-157 | the arm for an opcode; memory keeps its size, AC, PAD and int_enable are never written, and an opcode without an arm changes nothing |
| OldEmulator.Step | src/emulator.rs:62-158 | the fetch then the arm, with the same frame as `Emulator.Step` |
| OldEmulator.EmulateOp | src/emulator.rs:62-158 | the in-place step equals this file's `Step` |
| OldEmulator.ExecuteLoadAndPair | src/emulator.rs:66-93 | the arms below 0x80 equal `Execute` |
| OldEmulator.ExecuteAdd | src/emulator.rs:94-105 | the arms 0x80-0x87 equal `Execute` |
| OldEmulator.ExecuteAdc | src/emulator.rs:106-117 | the arms 0x88-0x8f equal `Execute` |
| OldEmulator.ExecuteTransfer | src/emulator.rs:118-154 | the jumps and the inline CALL and RET equal `Execute` |
| OldEmulator.AddInto | src/emulator.rs:181-193 | only the accumulator and flags change, to `add_core` of the old ones |
| OldEmulator.UnknownOpcodeOnlyAdvancesPc | src/emulator.rs:156 | an opcode without an arm only adds 1 to pc |
| OldEmulator.AgreesWithNewer | src/emulator.rs:62-158 | every opcode implemented here is implemented by the newer step, with the same effect wherever both can run |
| OldEmulator.DcrOfZeroPanics | src/emulator.rs:262-266 | DCR B with B = 0 cannot run here, while the newer step wraps B to 0xFF |
| OldEmulator.NewerOnlyOpcodesAreSkipped | src/emulator.rs:65-157 | LDAX, DCX, LXI D/H/SP and MOV M,A are implemented only by the newer step and are skipped here |
| OldEmulator.TransferScenarios | src/emulator.rs:354-397 | the JMP, CALL and RET tests: 0x2211; 0x12 at 99, 0x37 at 98, sp 98; 0x1122 with sp 102 |
| OldEmulator.HelperTests | src/emulator.rs:280-440 | the `inx`, `add` and `inr` test values, computed with this file's helpers |

## Left out

- The tracing in `emulate_op` is left out: the disassembly of the current instruction and the `debug!` line. Only its demand that the instruction's bytes lie inside memory is kept, as a precondition of `Emulator.CanStep`.
- The diagnostics for skipped opcodes (`error!` and `println!`) are left out; only their state effect, which is none, is modelled.
- The driver in src/main.rs is not part of this model: argument parsing, logging setup, file reading and the window loop are I/O. Only its memory size of 64,000 bytes is kept.
- `ac`, `pad` and `int_enable` are carried in the state, and the contracts of `Execute` and `Step` in both interpreters state that no instruction writes them. Their uses elsewhere (interrupts, the auxiliary carry) are not part of the code.
- Panics are preconditions, not unwinding: a state that would panic has no successor in the model.
- Instructions the code does not implement are not invented (SUB, logic ops, PUSH/POP, interrupts and the rest). They are modelled exactly as the code handles them: skipped by one byte.
- Emulator.EmulateOp: the dispatch is split into four group methods so that each verifies separately. The arms and their order are unchanged.
- OldEmulator.EmulateOp: split the same way.
- The older `dad` is declared to take the whole state but is passed the flags. It is modelled with the behaviour of the newer `dad`, which writes only CY.
- Utils.UpdateFlags and OldEmulator.UpdateFlags take the parity from its specification (`EvenParity`), because a function cannot call the `Parity` method. `Utils.Parity` is proved to compute exactly that value.
- Utils.Parity: requires `size < 64`, because a larger size overflows the shift that builds the mask.
- OldEmulator.Parity: requires `size < 64`, for the same reason.
