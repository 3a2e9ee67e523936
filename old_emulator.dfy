/** The older standalone interpreter in src/emulator.rs. It keeps its own copies of the
    state record, the fetch, the jumps and the arithmetic helpers, and dispatches fewer
    opcodes than src/emulator/mod.rs. Each copy is modelled as written and proved equal to
    its newer counterpart; `AgreesWithNewer` then relates the two steps. */
module OldEmulator {
  import opened Types
  import opened Utils
  import Arithmetic
  import opened Logical
  import opened Machine
  import opened Branch
  import Emulator

  /** `combine_registers`: the upper byte shifted into the high half, then the lower byte
      or-ed in. */
  function CombineRegisters(upper: u8, lower: u8): (r: u16)
    ensures r / 0x100 == upper && r % 0x100 == lower
    ensures r == Combine(upper, lower)
  {
    var destination := upper;
    destination * 0x100 + lower
  }

  /** `update_flags`, the same rule as in src/emulator/utils.rs. */
  function UpdateFlags(value: u16, codes: ConditionCodes): (r: ConditionCodes)
    ensures r == Utils.UpdateFlags(value, codes)
  {
    var low := value % 0x100;
    assert (low / 0x80) % 2 == 1 <==> low >= 0x80;
    assert Pow2(8) == 0x100;
    PopCountLowBits(value, 8);
    codes.(z := low == 0, s := (low / 0x80) % 2 == 1, cy := value > MAX_U8, p := EvenParity(value, 8))
  }

  /** `parity`: the same counting loop as in src/emulator/utils.rs. */
  method Parity(valueToCheck: usize, size: usize) returns (even: bool)
    requires size < 64
    ensures even == EvenParity(valueToCheck, size)
  {
    var setBits := 0;
    var mask := Pow2(size) - 1;
    var temp: nat := valueToCheck % (mask + 1);
    PopCountLowBits(valueToCheck, size);
    for number := 0 to size
      invariant setBits + PopCount(temp, size - number) == PopCount(valueToCheck, size)
    {
      if temp % 2 == 1 {
        setBits := setBits + 1;
      }
      temp := temp / 2;
    }
    even := setBits % 2 == 0;
  }

  /** `add_core` (with `add` and `adc` as its two uses): the same as in
      src/emulator/arithmetic.rs, so the accumulator is the low byte of the widened sum. */
  function AddCore(a: u8, cc: ConditionCodes, value: u8, useCarry: bool): (r: (u8, ConditionCodes))
    ensures r.0 == (a + value + if useCarry && cc.cy then 1 else 0) % 0x100
    ensures r == Arithmetic.AddCore(a, cc, value, useCarry)
  {
    var answer := a + value + if useCarry && cc.cy then 1 else 0;
    (answer % 0x100, UpdateFlags(answer, cc))
  }

  /** `inx`: a 16-bit increment that wraps 0xffff to 0, as in arithmetic.rs. */
  function Inx(upper: u8, lower: u8): (r: (u8, u8))
    ensures Combine(r.0, r.1) == (Combine(upper, lower) + 1) % 0x10000
    ensures r == Arithmetic.Inx(upper, lower)
  {
    var (lower', carry) := if lower < MAX_U8 then (lower + 1, false) else (0, true);
    var upper' := if carry then (if upper < MAX_U8 then upper + 1 else 0) else upper;
    (upper', lower')
  }

  /** `inr`: the same as in arithmetic.rs; 255 becomes 0 with Z, P and CY set. */
  function Inr(value: u8, codes: ConditionCodes): (r: (u8, ConditionCodes))
    ensures r == Arithmetic.Inr(value, codes)
  {
    var answer := value + 1;
    (answer % 0x100, UpdateFlags(answer, codes))
  }

  /** `dcr`: subtracts one in 16 bits, which panics at 0, unlike the newer version that
      wraps 0 to 0xFF; elsewhere the two agree. */
  function Dcr(value: u8, codes: ConditionCodes): (r: (u8, ConditionCodes))
    requires value > 0
    ensures r.0 == value - 1 && !r.1.cy
    ensures r == Arithmetic.Dcr(value, codes)
  {
    var answer := value - 1;
    (answer % 0x100, UpdateFlags(answer, codes))
  }

  class State8080 {
    var a: u8
    var b: u8
    var c: u8
    var d: u8
    var e: u8
    var h: u8
    var l: u8
    var sp: u16
    var pc: u16
    const memory: array<u8>
    var cc: ConditionCodes
    var intEnable: u8

    ghost function View(): State
      reads this, memory
    {
      State(a, b, c, d, e, h, l, sp, pc, memory[..], cc, intEnable)
    }

    /** `new`: as in the newer record, except that the stack pointer starts at 0. */
    constructor (gameData: seq<u8>)
      ensures View() == Initial(gameData, 0)
      ensures fresh(memory)
    {
      a, b, c, d, e, h, l := 0, 0, 0, 0, 0, 0, 0;
      sp, pc := 0, 0;
      memory := new u8[|gameData|](i requires 0 <= i < |gameData| => gameData[i]);
      cc := ClearCodes;
      intEnable := 0;
    }

    /** `get_and_advance`: the byte at pc, then pc moves on by one. */
    method GetAndAdvance() returns (value: u8)
      requires pc < memory.Length && pc < 0xFFFF
      modifies this
      ensures value == memory[old(pc)]
      ensures View() == old(View()).(pc := old(pc) + 1)
    {
      value := memory[pc];
      pc := pc + 1;
    }
  }

  /** `jmp`: two operand bytes through `get_and_advance`, low byte first. */
  method Jmp(state: State8080)
    requires state.pc + 1 < state.memory.Length && state.pc + 2 <= 0xFFFF
    modifies state
    ensures state.View() == AfterJmp(old(state.View()))
  {
    var lower := state.GetAndAdvance();
    var upper := state.GetAndAdvance();
    state.pc := CombineRegisters(upper, lower);
  }

  /** `conditional_jmp`: `jmp` when the condition holds, else skip the operand. */
  method ConditionalJmp(condition: bool, state: State8080)
    requires state.pc + 2 <= 0xFFFF
    requires condition ==> state.pc + 1 < state.memory.Length
    modifies state
    ensures state.View() == AfterConditionalJmp(condition, old(state.View()))
  {
    if condition {
      Jmp(state);
    } else {
      state.pc := state.pc + 2;
    }
  }

  /** The opcodes this `emulate_op` has an arm for. */
  predicate IsImplemented(op: u8)
  {
    op in {0x00, 0x01, 0x02, 0x03, 0x04, 0x05, 0x06, 0x07, 0x08, 0x09, 0x13, 0x23, 0x33,
           0x80, 0x81, 0x82, 0x83, 0x84, 0x85, 0x86, 0x87, 0x88, 0x89, 0x8a, 0x8b, 0x8c, 0x8d, 0x8e, 0x8f,
           0xc2, 0xc3, 0xc9, 0xca, 0xcd, 0xd2, 0xda, 0xe2, 0xea}
  }

  /** What the arm for `op` needs to run without a panic, after the opcode fetch. */
  predicate CanExecute(op: u8, n: State)
  {
    match op
    case 0x01 | 0xc3 => n.pc + 1 < |n.memory| && n.pc + 2 <= 0xFFFF
    case 0x06 => n.pc < |n.memory| && n.pc + 1 <= 0xFFFF
    case 0x02 => Combine(n.b, n.c) < |n.memory|
    case 0x05 => n.b > 0
    case 0x33 => n.sp + 1 <= 0xFFFF
    case 0x86 | 0x8e => Combine(n.h, n.l) < |n.memory|
    case 0xc2 => Emulator.CanConditionalJmp(!n.cc.z, n)
    case 0xca => Emulator.CanConditionalJmp(n.cc.z, n)
    case 0xd2 => Emulator.CanConditionalJmp(!n.cc.cy, n)
    case 0xda => Emulator.CanConditionalJmp(n.cc.cy, n)
    case 0xe2 => Emulator.CanConditionalJmp(!n.cc.p, n)
    case 0xea => Emulator.CanConditionalJmp(n.cc.p, n)
    case 0xcd => n.pc + 2 <= 0xFFFF && n.pc + 1 < |n.memory| && 2 <= n.sp && n.sp - 1 < |n.memory|
    case 0xc9 => n.sp + 1 < |n.memory| && n.sp + 2 <= 0xFFFF
    case _ => true
  }

  /** This `emulate_op` traces nothing, so only the fetch and the arm can panic. */
  predicate CanStep(s: State)
  {
    s.pc < |s.memory| && s.pc < 0xFFFF && CanExecute(s.memory[s.pc], s.(pc := s.pc + 1))
  }

  function WithA(n: State, r: (u8, ConditionCodes)): State
  {
    n.(a := r.0, cc := r.1)
  }

  /** The arm for `op`, run on the state after the opcode fetch. The inline CALL and RET
      arms do what `call` and `ret` of src/emulator/branch.rs do. */
  function Execute(op: u8, n: State): (r: State)
    requires CanExecute(op, n)
    ensures |r.memory| == |n.memory|
    ensures r.intEnable == n.intEnable && r.cc.ac == n.cc.ac && r.cc.pad == n.cc.pad
    ensures !IsImplemented(op) ==> r == n
  {
    match op
    case 0x00 => n
    case 0x01 => n.(c := n.memory[n.pc], b := n.memory[n.pc + 1], pc := n.pc + 2)
    case 0x02 => n.(memory := n.memory[CombineRegisters(n.b, n.c) := n.a])
    case 0x03 => var (b, c) := Inx(n.b, n.c); n.(b := b, c := c)
    case 0x04 => var (b, cc) := Inr(n.b, n.cc); n.(b := b, cc := cc)
    case 0x05 => var (b, cc) := Dcr(n.b, n.cc); n.(b := b, cc := cc)
    case 0x06 => n.(b := n.memory[n.pc], pc := n.pc + 1)
    case 0x07 => WithA(n, RotateLeftWithCarry(n.a, n.cc))
    case 0x08 => n
    case 0x09 => var (h, l, cc) := Arithmetic.Dad(n.h, n.l, n.b, n.c, n.cc); n.(h := h, l := l, cc := cc)
    case 0x13 => var (d, e) := Inx(n.d, n.e); n.(d := d, e := e)
    case 0x23 => var (h, l) := Inx(n.h, n.l); n.(h := h, l := l)
    case 0x33 => n.(sp := n.sp + 1)
    case 0x80 => WithA(n, AddCore(n.a, n.cc, n.b, false))
    case 0x81 => WithA(n, AddCore(n.a, n.cc, n.c, false))
    case 0x82 => WithA(n, AddCore(n.a, n.cc, n.d, false))
    case 0x83 => WithA(n, AddCore(n.a, n.cc, n.e, false))
    case 0x84 => WithA(n, AddCore(n.a, n.cc, n.h, false))
    case 0x85 => WithA(n, AddCore(n.a, n.cc, n.l, false))
    case 0x86 => WithA(n, AddCore(n.a, n.cc, n.memory[CombineRegisters(n.h, n.l)], false))
    case 0x87 => WithA(n, AddCore(n.a, n.cc, n.a, true))
    case 0x88 => WithA(n, AddCore(n.a, n.cc, n.b, true))
    case 0x89 => WithA(n, AddCore(n.a, n.cc, n.c, true))
    case 0x8a => WithA(n, AddCore(n.a, n.cc, n.d, true))
    case 0x8b => WithA(n, AddCore(n.a, n.cc, n.e, true))
    case 0x8c => WithA(n, AddCore(n.a, n.cc, n.h, true))
    case 0x8d => WithA(n, AddCore(n.a, n.cc, n.l, true))
    case 0x8e => WithA(n, AddCore(n.a, n.cc, n.memory[CombineRegisters(n.h, n.l)], false))
    case 0x8f => WithA(n, AddCore(n.a, n.cc, n.a, true))
    case 0xc2 => AfterConditionalJmp(!n.cc.z, n)
    case 0xc3 => AfterJmp(n)
    case 0xca => AfterConditionalJmp(n.cc.z, n)
    case 0xcd => AfterCall(n)
    case 0xc9 => AfterRet(n)
    case 0xd2 => AfterConditionalJmp(!n.cc.cy, n)
    case 0xda => AfterConditionalJmp(n.cc.cy, n)
    case 0xe2 => AfterConditionalJmp(!n.cc.p, n)
    case 0xea => AfterConditionalJmp(n.cc.p, n)
    case _ => n
  }

  /** `emulate_op` on the state value. */
  function Step(s: State): (r: State)
    requires CanStep(s)
    ensures |r.memory| == |s.memory|
    ensures r.intEnable == s.intEnable && r.cc.ac == s.cc.ac && r.cc.pad == s.cc.pad
    ensures !IsImplemented(s.memory[s.pc]) ==> r == s.(pc := s.pc + 1)
  {
    Execute(s.memory[s.pc], s.(pc := s.pc + 1))
  }

  /** `emulate_op`, updating the state in place: the opcode fetch, then its arm. */
  method EmulateOp(state: State8080)
    requires CanStep(state.View())
    modifies state, state.memory
    ensures state.View() == Step(old(state.View()))
  {
    var code := state.GetAndAdvance();
    if code < 0x80 {
      ExecuteLoadAndPair(state, code);
    } else if code < 0x88 {
      ExecuteAdd(state, code);
    } else if code < 0xC0 {
      ExecuteAdc(state, code);
    } else {
      ExecuteTransfer(state, code);
    }
  }

  /** The arms for opcodes below 0x80. */
  method ExecuteLoadAndPair(state: State8080, code: u8)
    requires code < 0x80
    requires CanExecute(code, state.View())
    modifies state, state.memory
    ensures state.View() == Execute(code, old(state.View()))
  {
    match code {
      case 0x00 =>
      case 0x01 =>
        state.c := state.GetAndAdvance();
        state.b := state.GetAndAdvance();
      case 0x02 =>
        var destination := CombineRegisters(state.b, state.c);
        state.memory[destination] := state.a;
      case 0x03 =>
        var (b, c) := Inx(state.b, state.c);
        state.b, state.c := b, c;
      case 0x04 =>
        var (b, cc) := Inr(state.b, state.cc);
        state.b, state.cc := b, cc;
      case 0x05 =>
        var (b, cc) := Dcr(state.b, state.cc);
        state.b, state.cc := b, cc;
      case 0x06 =>
        state.b := state.GetAndAdvance();
      case 0x07 =>
        var acc := state.a;
        state.cc := state.cc.(cy := acc / 0x80 == 1);
        state.a := (acc as int * 2) % 0x100;
        if state.cc.cy {
          state.a := state.a + 1;
        }
      case 0x08 =>
      case 0x09 =>
        var (h, l, cc) := Arithmetic.Dad(state.h, state.l, state.b, state.c, state.cc);
        state.h, state.l, state.cc := h, l, cc;
      case 0x13 =>
        var (d, e) := Inx(state.d, state.e);
        state.d, state.e := d, e;
      case 0x23 =>
        var (h, l) := Inx(state.h, state.l);
        state.h, state.l := h, l;
      case 0x33 =>
        state.sp := state.sp + 1;
      case _ =>
    }
  }

  /** The arms for opcodes 0x80 to 0x87: the ADD block, which ends with ADC A. */
  method ExecuteAdd(state: State8080, code: u8)
    requires 0x80 <= code < 0x88
    requires CanExecute(code, state.View())
    modifies state
    ensures state.View() == Execute(code, old(state.View()))
  {
    match code {
      case 0x80 =>
        AddInto(state, state.b, false);
      case 0x81 =>
        AddInto(state, state.c, false);
      case 0x82 =>
        AddInto(state, state.d, false);
      case 0x83 =>
        AddInto(state, state.e, false);
      case 0x84 =>
        AddInto(state, state.h, false);
      case 0x85 =>
        AddInto(state, state.l, false);
      case 0x86 =>
        var address := CombineRegisters(state.h, state.l);
        var val := state.memory[address];
        AddInto(state, val, false);
      case 0x87 =>
        AddInto(state, state.a, true);
    }
  }

  /** The arms for opcodes 0x88 to 0xbf: the ADC block, whose ADC M adds without the carry. */
  method ExecuteAdc(state: State8080, code: u8)
    requires 0x88 <= code < 0xC0
    requires CanExecute(code, state.View())
    modifies state
    ensures state.View() == Execute(code, old(state.View()))
  {
    match code {
      case 0x88 =>
        AddInto(state, state.b, true);
      case 0x89 =>
        AddInto(state, state.c, true);
      case 0x8a =>
        AddInto(state, state.d, true);
      case 0x8b =>
        AddInto(state, state.e, true);
      case 0x8c =>
        AddInto(state, state.h, true);
      case 0x8d =>
        AddInto(state, state.l, true);
      case 0x8e =>
        var address := CombineRegisters(state.h, state.l);
        var val := state.memory[address];
        AddInto(state, val, false);
      case 0x8f =>
        AddInto(state, state.a, true);
      case _ =>
    }
  }

  /** The arms for opcodes from 0xc0: jumps, and CALL and RET written out inline. */
  method ExecuteTransfer(state: State8080, code: u8)
    requires 0xC0 <= code
    requires CanExecute(code, state.View())
    modifies state, state.memory
    ensures state.View() == Execute(code, old(state.View()))
  {
    match code {
      case 0xc2 =>
        ConditionalJmp(!state.cc.z, state);
      case 0xc3 =>
        Jmp(state);
      case 0xca =>
        ConditionalJmp(state.cc.z, state);
      case 0xcd =>
        var returnAddress := state.pc + 2;
        state.memory[state.sp - 1] := (returnAddress / 0x100) % 0x100;
        state.memory[state.sp - 2] := returnAddress % 0x100;
        state.sp := state.sp - 2;
        Jmp(state);
      case 0xc9 =>
        var upper := state.memory[state.sp];
        var lower := state.memory[state.sp + 1];
        state.pc := CombineRegisters(upper, lower);
        state.sp := state.sp + 2;
      case 0xd2 =>
        ConditionalJmp(!state.cc.cy, state);
      case 0xda =>
        ConditionalJmp(state.cc.cy, state);
      case 0xe2 =>
        ConditionalJmp(!state.cc.p, state);
      case 0xea =>
        ConditionalJmp(state.cc.p, state);
      case _ =>
    }
  }

  /** `add` and `adc` on the accumulator of a `State8080` (`useCarry` selects `adc`). */
  method AddInto(state: State8080, value: u8, useCarry: bool)
    modifies state
    ensures state.View() == old(state.View()).(a := state.a, cc := state.cc)
    ensures (state.a, state.cc) == AddCore(old(state.a), old(state.cc), value, useCarry)
  {
    var (a, cc) := AddCore(state.a, state.cc, value, useCarry);
    state.a, state.cc := a, cc;
  }

  /** An opcode without an arm only moves pc past the opcode byte. */
  lemma UnknownOpcodeOnlyAdvancesPc(s: State)
    requires CanStep(s) && !IsImplemented(s.memory[s.pc])
    ensures Step(s) == s.(pc := s.pc + 1)
  {
  }

  /** Every opcode this interpreter implements, the newer one implements the same way,
      wherever both can run it. */
  lemma AgreesWithNewer(s: State)
    requires CanStep(s) && Emulator.CanStep(s) && IsImplemented(s.memory[s.pc])
    ensures Emulator.IsImplemented(s.memory[s.pc])
    ensures Step(s) == Emulator.Step(s)
  {
  }

  /** DCR B of 0 cannot run here (the u16 subtraction underflows), while the newer
      interpreter wraps it to 0xFF. */
  lemma DcrOfZeroPanics(s: State)
    requires s.pc < |s.memory| && s.pc < 0xFFFF && s.memory[s.pc] == 0x05 && s.b == 0
    ensures !CanStep(s)
    ensures Emulator.CanStep(s) && Emulator.Step(s).b == 0xFF
  {
  }

  /** LXI D, LXI H and the other opcodes only the newer interpreter implements are
      skipped here one byte at a time. */
  lemma NewerOnlyOpcodesAreSkipped(s: State)
    requires CanStep(s) && s.memory[s.pc] in {0x0a, 0x0b, 0x11, 0x1a, 0x1b, 0x21, 0x2b, 0x31, 0x77}
    ensures Emulator.IsImplemented(s.memory[s.pc])
    ensures Step(s) == s.(pc := s.pc + 1)
  {
  }

  /** The tests' JMP, CALL and RET: 0x2211; 0x12 at 99, 0x37 at 98 and sp 98; 0x1122 and
      sp 102. The tests' starting state is the same as for the newer interpreter. */
  lemma TransferScenarios()
    ensures var s := Emulator.SetupState().(memory := Zeros(MEMORY_SIZE)[0 := 0xc3][1 := 0x11][2 := 0x22]);
      CanStep(s) && Step(s).pc == 0x2211
    ensures var s := Emulator.SetupState().(pc := 0x1234,
                                            memory := Zeros(MEMORY_SIZE)[0x1234 := 0xcd][0x1235 := 0x11][0x1236 := 0x22]);
      && CanStep(s)
      && Step(s).pc == 0x2211 && Step(s).sp == 98
      && Step(s).memory[99] == 0x12 && Step(s).memory[98] == 0x37
    ensures var s := Emulator.SetupState().(pc := 0x3456,
                                            memory := Zeros(MEMORY_SIZE)[0x3456 := 0xc9][100 := 0x11][101 := 0x22]);
      CanStep(s) && Step(s).pc == 0x1122 && Step(s).sp == 102
  {
  }

  /** The unit tests of this file's helpers: `inx` on 0x0000, 0x00ff and 0xffff; `add` of
      0, 1, 1, 200 and 202 from a zero accumulator; `inr` up from 0 and from 255. */
  lemma HelperTests()
    ensures Inx(0, 0) == (0, 1) && Inx(0, 0xFF) == (1, 0) && Inx(0xFF, 0xFF) == (0, 0)
    ensures var s1 := AddCore(0, ClearCodes, 0, false);
      && s1.0 == 0 && s1.1.z && !s1.1.s && !s1.1.cy && s1.1.p
      && var s2 := AddCore(s1.0, s1.1, 1, false);
      && s2.0 == 1 && !s2.1.z && !s2.1.s && !s2.1.cy && !s2.1.p
      && var s3 := AddCore(s2.0, s2.1, 1, false);
      && s3.0 == 2 && !s3.1.z && !s3.1.s && !s3.1.cy && !s3.1.p
      && var s4 := AddCore(s3.0, s3.1, 200, false);
      && s4.0 == 202 && !s4.1.z && s4.1.s && !s4.1.cy && s4.1.p
      && var s5 := AddCore(s4.0, s4.1, 202, false);
      && s5.0 == 148 && !s5.1.z && s5.1.s && s5.1.cy && !s5.1.p
    ensures var r1 := Inr(0, ClearCodes);
      && r1.0 == 1 && !r1.1.z && !r1.1.s && !r1.1.p && !r1.1.cy
      && var r2 := Inr(r1.0, r1.1);
      && r2.0 == 2 && !r2.1.z && !r2.1.s && !r2.1.p && !r2.1.cy
      && var r3 := Inr(r2.0, r2.1);
      && r3.0 == 3 && !r3.1.z && !r3.1.s && r3.1.p && !r3.1.cy
      && var r4 := Inr(255, r3.1);
      && r4.0 == 0 && r4.1.z && !r4.1.s && r4.1.p && r4.1.cy
  {
    Arithmetic.InxExamples();
    Arithmetic.AddSequenceExample();
    Arithmetic.InrExamples();
  }
}
