/** One instruction step of the interpreter in src/emulator/mod.rs (`emulate_op`): fetch
    the opcode, run its arm, or skip an opcode that has no arm. `Step` states the effect
    on the state value; `EmulateOp` updates a `State8080` in place and is proved equal
    to it. */
module Emulator {
  import opened Types
  import opened Utils
  import opened Arithmetic
  import opened Logical
  import opened Machine
  import opened Branch
  import Disassembler

  /** The opcodes `emulate_op` has an arm for; every other opcode is skipped. */
  predicate IsImplemented(op: u8)
  {
    op in {0x00, 0x01, 0x02, 0x03, 0x04, 0x05, 0x06, 0x07, 0x08, 0x09, 0x0a, 0x0b, 0x11, 0x13, 0x1a, 0x1b, 0x21, 0x23, 0x2b, 0x31, 0x33, 0x77, 0x80, 0x81, 0x82, 0x83, 0x84, 0x85, 0x86, 0x87, 0x88, 0x89, 0x8a, 0x8b, 0x8c, 0x8d, 0x8e, 0x8f, 0xc2, 0xc3, 0xc9, 0xca, 0xcd, 0xd2, 0xda, 0xe2, 0xea}
  }

  /** JNZ, JZ, JNC, JC, JPO and JPE. */
  predicate IsConditionalJump(op: u8)
  {
    op in {0xc2, 0xca, 0xd2, 0xda, 0xe2, 0xea}
  }

  /** JMP, CALL and RET. */
  predicate IsTransfer(op: u8)
  {
    op in {0xc3, 0xcd, 0xc9}
  }

  /** What the arm for `op` needs to run without a panic, in the state `n` reached after
      the opcode fetch: operand bytes and addressed cells inside memory, and no u16
      overflow of pc or sp. */
  predicate CanExecute(op: u8, n: State)
  {
    match op
    case 0x01 | 0x11 | 0x21 | 0x31 | 0xc3 => n.pc + 1 < |n.memory| && n.pc + 2 <= 0xFFFF
    case 0x06 => n.pc < |n.memory| && n.pc + 1 <= 0xFFFF
    case 0x02 | 0x0a => Combine(n.b, n.c) < |n.memory|
    case 0x1a => Combine(n.d, n.e) < |n.memory|
    case 0x77 | 0x86 | 0x8e => Combine(n.h, n.l) < |n.memory|
    case 0x33 => n.sp + 1 <= 0xFFFF
    case 0xc2 => CanConditionalJmp(!n.cc.z, n)
    case 0xca => CanConditionalJmp(n.cc.z, n)
    case 0xd2 => CanConditionalJmp(!n.cc.cy, n)
    case 0xda => CanConditionalJmp(n.cc.cy, n)
    case 0xe2 => CanConditionalJmp(!n.cc.p, n)
    case 0xea => CanConditionalJmp(n.cc.p, n)
    case 0xcd => n.pc + 2 <= 0xFFFF && n.pc + 1 < |n.memory| && 2 <= n.sp && n.sp - 1 < |n.memory|
    case 0xc9 => n.sp + 1 < |n.memory| && n.sp + 2 <= 0xFFFF
    case _ => true
  }

  predicate CanConditionalJmp(condition: bool, n: State)
  {
    n.pc + 2 <= 0xFFFF && (condition ==> n.pc + 1 < |n.memory|)
  }

  /** What `emulate_op` needs to run without a panic: the tracing disassembly of the
      instruction at pc stays inside memory, the opcode fetch does not overflow pc, and
      the arm can run. */
  predicate CanStep(s: State)
  {
    && s.pc < |s.memory|
    && s.pc + Disassembler.BytesUsed(s.memory[s.pc]) <= |s.memory|
    && s.pc < 0xFFFF
    && CanExecute(s.memory[s.pc], s.(pc := s.pc + 1))
  }

  function WithA(n: State, r: (u8, ConditionCodes)): State
  {
    n.(a := r.0, cc := r.1)
  }

  /** The arm for `op`, run on the state after the opcode fetch. */
  function Execute(op: u8, n: State): (r: State)
    requires CanExecute(op, n)
    ensures |r.memory| == |n.memory|
    ensures r.intEnable == n.intEnable && r.cc.ac == n.cc.ac && r.cc.pad == n.cc.pad
    ensures !IsImplemented(op) ==> r == n
  {
    match op
    case 0x00 => n
    case 0x01 => n.(c := n.memory[n.pc], b := n.memory[n.pc + 1], pc := n.pc + 2)
    case 0x02 => n.(memory := n.memory[Combine(n.b, n.c) := n.a])
    case 0x03 => var (b, c) := Inx(n.b, n.c); n.(b := b, c := c)
    case 0x04 => var (b, cc) := Inr(n.b, n.cc); n.(b := b, cc := cc)
    case 0x05 => var (b, cc) := Dcr(n.b, n.cc); n.(b := b, cc := cc)
    case 0x06 => n.(b := n.memory[n.pc], pc := n.pc + 1)
    case 0x07 => WithA(n, RotateLeftWithCarry(n.a, n.cc))
    case 0x08 => n
    case 0x09 => var (h, l, cc) := Dad(n.h, n.l, n.b, n.c, n.cc); n.(h := h, l := l, cc := cc)
    case 0x0a => n.(a := n.memory[Combine(n.b, n.c)])
    case 0x0b => var (b, c) := Dcx(n.b, n.c); n.(b := b, c := c)
    case 0x11 => n.(e := n.memory[n.pc], d := n.memory[n.pc + 1], pc := n.pc + 2)
    case 0x13 => var (d, e) := Inx(n.d, n.e); n.(d := d, e := e)
    case 0x1a => n.(a := n.memory[Combine(n.d, n.e)])
    case 0x1b => var (d, e) := Dcx(n.d, n.e); n.(d := d, e := e)
    case 0x21 => n.(l := n.memory[n.pc], h := n.memory[n.pc + 1], pc := n.pc + 2)
    case 0x23 => var (h, l) := Inx(n.h, n.l); n.(h := h, l := l)
    case 0x2b => var (h, l) := Dcx(n.h, n.l); n.(h := h, l := l)
    case 0x31 => n.(sp := Combine(n.memory[n.pc + 1], n.memory[n.pc]), pc := n.pc + 2)
    case 0x33 => n.(sp := n.sp + 1)
    case 0x77 => n.(memory := n.memory[Combine(n.h, n.l) := n.a])
    case 0x80 => WithA(n, Add(n.a, n.cc, n.b))
    case 0x81 => WithA(n, Add(n.a, n.cc, n.c))
    case 0x82 => WithA(n, Add(n.a, n.cc, n.d))
    case 0x83 => WithA(n, Add(n.a, n.cc, n.e))
    case 0x84 => WithA(n, Add(n.a, n.cc, n.h))
    case 0x85 => WithA(n, Add(n.a, n.cc, n.l))
    case 0x86 => WithA(n, Add(n.a, n.cc, n.memory[Combine(n.h, n.l)]))
    case 0x87 => WithA(n, Adc(n.a, n.cc, n.a))
    case 0x88 => WithA(n, Adc(n.a, n.cc, n.b))
    case 0x89 => WithA(n, Adc(n.a, n.cc, n.c))
    case 0x8a => WithA(n, Adc(n.a, n.cc, n.d))
    case 0x8b => WithA(n, Adc(n.a, n.cc, n.e))
    case 0x8c => WithA(n, Adc(n.a, n.cc, n.h))
    case 0x8d => WithA(n, Adc(n.a, n.cc, n.l))
    case 0x8e => WithA(n, Add(n.a, n.cc, n.memory[Combine(n.h, n.l)]))
    case 0x8f => WithA(n, Adc(n.a, n.cc, n.a))
    case 0xc2 => AfterConditionalJmp(!n.cc.z, n)
    case 0xc3 => AfterJmp(n)
    case 0xca => AfterConditionalJmp(n.cc.z, n)
    case 0xcd => AfterCall(n)
    case 0xc9 => AfterRet(n)
    case 0xd2 => AfterConditionalJmp(!n.cc.cy, n)
    case 0xda => AfterConditionalJmp(n.cc.cy, n)
    case 0xe2 => AfterConditionalJmp(!n.cc.p, n)
    case 0xea => AfterConditionalJmp(n.cc.p, n)
    case _ => n
  }

  /** `emulate_op` on the state value. */
  function Step(s: State): (r: State)
    requires CanStep(s)
    ensures |r.memory| == |s.memory|
    ensures r.intEnable == s.intEnable && r.cc.ac == s.cc.ac && r.cc.pad == s.cc.pad
    ensures !IsImplemented(s.memory[s.pc]) ==> r == s.(pc := s.pc + 1)
  {
    Execute(s.memory[s.pc], s.(pc := s.pc + 1))
  }

  /** `emulate_op`, updating the state in place: the opcode fetch, then its arm. */
  method EmulateOp(state: State8080)
    requires CanStep(state.View())
    modifies state, state.memory
    ensures state.View() == Step(old(state.View()))
  {
    var code := state.GetAndAdvance();
    if code < 0x40 {
      ExecuteLoadAndPair(state, code);
    } else if code < 0x88 {
      ExecuteAdd(state, code);
    } else if code < 0xC0 {
      ExecuteAdc(state, code);
    } else {
      ExecuteTransfer(state, code);
    }
  }

  /** The arms for opcodes below 0x40: loads, register-pair and single-register updates. */
  method ExecuteLoadAndPair(state: State8080, code: u8)
    requires code < 0x40
    requires CanExecute(code, state.View())
    modifies state, state.memory
    ensures state.View() == Execute(code, old(state.View()))
  {
    match code {
      case 0x00 =>
      case 0x01 =>
        state.c := state.GetAndAdvance();
        state.b := state.GetAndAdvance();
      case 0x02 =>
        var destination := Combine(state.b, state.c);
        state.memory[destination] := state.a;
      case 0x03 =>
        var (b, c) := Inx(state.b, state.c);
        state.b, state.c := b, c;
      case 0x04 =>
        var (b, cc) := Inr(state.b, state.cc);
        state.b, state.cc := b, cc;
      case 0x05 =>
        var (b, cc) := Dcr(state.b, state.cc);
        state.b, state.cc := b, cc;
      case 0x06 =>
        state.b := state.GetAndAdvance();
      case 0x07 =>
        var acc := state.a;
        state.cc := state.cc.(cy := acc / 0x80 == 1);
        state.a := (acc as int * 2) % 0x100;
        if state.cc.cy {
          state.a := state.a + 1;
        }
      case 0x08 =>
      case 0x09 =>
        var (h, l, cc) := Dad(state.h, state.l, state.b, state.c, state.cc);
        state.h, state.l, state.cc := h, l, cc;
      case 0x0a =>
        var target := Combine(state.b, state.c);
        state.a := state.memory[target];
      case 0x0b =>
        var (b, c) := Dcx(state.b, state.c);
        state.b, state.c := b, c;
      case 0x11 =>
        state.e := state.GetAndAdvance();
        state.d := state.GetAndAdvance();
      case 0x13 =>
        var (d, e) := Inx(state.d, state.e);
        state.d, state.e := d, e;
      case 0x1a =>
        var target := Combine(state.d, state.e);
        state.a := state.memory[target];
      case 0x1b =>
        var (d, e) := Dcx(state.d, state.e);
        state.d, state.e := d, e;
      case 0x21 =>
        state.l := state.GetAndAdvance();
        state.h := state.GetAndAdvance();
      case 0x23 =>
        var (h, l) := Inx(state.h, state.l);
        state.h, state.l := h, l;
      case 0x2b =>
        var (h, l) := Dcx(state.h, state.l);
        state.h, state.l := h, l;
      case 0x31 =>
        state.sp := state.GetDouble();
      case 0x33 =>
        state.sp := state.sp + 1;
      case _ =>
    }
  }

  /** The arms for opcodes 0x40 to 0x87: MOV M,A and the ADD block, which ends with ADC A. */
  method ExecuteAdd(state: State8080, code: u8)
    requires 0x40 <= code < 0x88
    requires CanExecute(code, state.View())
    modifies state, state.memory
    ensures state.View() == Execute(code, old(state.View()))
  {
    match code {
      case 0x77 =>
        state.memory[Combine(state.h, state.l)] := state.a;
      case 0x80 =>
        AddInto(state, state.b, false);
      case 0x81 =>
        AddInto(state, state.c, false);
      case 0x82 =>
        AddInto(state, state.d, false);
      case 0x83 =>
        AddInto(state, state.e, false);
      case 0x84 =>
        AddInto(state, state.h, false);
      case 0x85 =>
        AddInto(state, state.l, false);
      case 0x86 =>
        var address := Combine(state.h, state.l);
        var val := state.memory[address];
        AddInto(state, val, false);
      case 0x87 =>
        AddInto(state, state.a, true);
      case _ =>
    }
  }

  /** The arms for opcodes 0x88 to 0xbf: the ADC block, whose ADC M adds without the carry. */
  method ExecuteAdc(state: State8080, code: u8)
    requires 0x88 <= code < 0xC0
    requires CanExecute(code, state.View())
    modifies state, state.memory
    ensures state.View() == Execute(code, old(state.View()))
  {
    match code {
      case 0x88 =>
        AddInto(state, state.b, true);
      case 0x89 =>
        AddInto(state, state.c, true);
      case 0x8a =>
        AddInto(state, state.d, true);
      case 0x8b =>
        AddInto(state, state.e, true);
      case 0x8c =>
        AddInto(state, state.h, true);
      case 0x8d =>
        AddInto(state, state.l, true);
      case 0x8e =>
        var address := Combine(state.h, state.l);
        var val := state.memory[address];
        AddInto(state, val, false);
      case 0x8f =>
        AddInto(state, state.a, true);
      case _ =>
    }
  }

  /** The arms for opcodes from 0xc0: jumps, CALL and RET. */
  method ExecuteTransfer(state: State8080, code: u8)
    requires 0xC0 <= code
    requires CanExecute(code, state.View())
    modifies state, state.memory
    ensures state.View() == Execute(code, old(state.View()))
  {
    match code {
      case 0xc2 =>
        ConditionalJmp(!state.cc.z, state);
      case 0xc3 =>
        Jmp(state);
      case 0xca =>
        ConditionalJmp(state.cc.z, state);
      case 0xcd =>
        Call(state);
      case 0xc9 =>
        Ret(state);
      case 0xd2 =>
        ConditionalJmp(!state.cc.cy, state);
      case 0xda =>
        ConditionalJmp(state.cc.cy, state);
      case 0xe2 =>
        ConditionalJmp(!state.cc.p, state);
      case 0xea =>
        ConditionalJmp(state.cc.p, state);
      case _ =>
    }
  }

  /** `add` and `adc` on the accumulator of a `State8080` (`useCarry` selects `adc`). */
  method AddInto(state: State8080, value: u8, useCarry: bool)
    modifies state
    ensures state.View() == old(state.View()).(a := state.a, cc := state.cc)
    ensures (state.a, state.cc) == AddCore(old(state.a), old(state.cc), value, useCarry)
  {
    var (a, cc) := AddCore(state.a, state.cc, value, useCarry);
    state.a, state.cc := a, cc;
  }

  /** The condition a conditional jump tests, decoded from the CCC field of its opcode
      (11CCC010) as the 8080 manual lists it: NZ, Z, NC, C, PO, PE, P, M. */
  function ManualCondition(op: u8, cc: ConditionCodes): bool
  {
    match (op / 8) % 8
    case 0 => !cc.z
    case 1 => cc.z
    case 2 => !cc.cy
    case 3 => cc.cy
    case 4 => !cc.p
    case 5 => cc.p
    case 6 => !cc.s
    case _ => cc.s
  }

  /** An opcode without an arm only moves pc past the opcode byte, even where the
      instruction it encodes is two or three bytes long. */
  lemma UnknownOpcodeOnlyAdvancesPc(s: State)
    requires CanStep(s) && !IsImplemented(s.memory[s.pc])
    ensures Step(s) == s.(pc := s.pc + 1)
  {
  }

  /** JNZ, JZ, JNC, JC, JPO and JPE branch exactly when the manual's condition holds,
      to the little-endian address after the opcode, and otherwise skip it. */
  lemma ConditionalJumpsFollowManual(s: State)
    requires CanStep(s) && IsConditionalJump(s.memory[s.pc])
    ensures s.pc + 2 < |s.memory|
    ensures ManualCondition(s.memory[s.pc], s.cc) ==>
      Step(s) == s.(pc := s.memory[s.pc + 1] as int + 0x100 * s.memory[s.pc + 2] as int)
    ensures !ManualCondition(s.memory[s.pc], s.cc) ==> Step(s) == s.(pc := s.pc + 3)
  {
    var op := s.memory[s.pc];
    Disassembler.ThreeByteOpsUseThree(op);
    var n := s.(pc := s.pc + 1);
    assert Step(s) == AfterConditionalJmp(ManualCondition(op, s.cc), n) by {
      if op == 0xc2 {
        assert ManualCondition(op, s.cc) == !s.cc.z;
      } else if op == 0xca {
        assert ManualCondition(op, s.cc) == s.cc.z;
      } else if op == 0xd2 {
        assert ManualCondition(op, s.cc) == !s.cc.cy;
      } else if op == 0xda {
        assert ManualCondition(op, s.cc) == s.cc.cy;
      } else if op == 0xe2 {
        assert ManualCondition(op, s.cc) == !s.cc.p;
      } else {
        assert ManualCondition(op, s.cc) == s.cc.p;
      }
    }
  }

  /** For every opcode with an arm, except a taken jump, JMP, CALL and RET, pc moves on by
      the instruction length the disassembler gives. */
  lemma PcAdvanceMatchesBytesUsed(s: State)
    requires CanStep(s)
    requires IsImplemented(s.memory[s.pc]) && !IsTransfer(s.memory[s.pc])
    requires IsConditionalJump(s.memory[s.pc]) ==> !ManualCondition(s.memory[s.pc], s.cc)
    ensures Step(s).pc == s.pc + Disassembler.BytesUsed(s.memory[s.pc])
  {
    var op := s.memory[s.pc];
    if IsConditionalJump(op) {
      ConditionalJumpsFollowManual(s);
      Disassembler.ThreeByteOpsUseThree(op);
    } else if op in {0x01, 0x11, 0x21, 0x31} {
      LxiLoadsLowThenHigh(s);
      Disassembler.ThreeByteOpsUseThree(op);
    } else if op == 0x06 {
      Disassembler.TwoByteOpsUseTwo(op);
    } else if 0x40 <= op < 0xC0 {
      Disassembler.RegisterBlockUsesOne(op);
    } else {
      assert op !in Disassembler.ThreeByteOps && op !in Disassembler.TwoByteOps;
      Disassembler.OtherOpsUseOne(op);
    }
  }

  /** LXI B, D, H and SP: the first operand byte is the low half and the second the high
      half; pc moves past both. */
  lemma LxiLoadsLowThenHigh(s: State)
    requires CanStep(s) && s.memory[s.pc] in {0x01, 0x11, 0x21, 0x31}
    ensures s.pc + 2 < |s.memory|
    ensures var op, low, high, next := s.memory[s.pc], s.memory[s.pc + 1], s.memory[s.pc + 2], s.pc + 3;
      && (op == 0x01 ==> Step(s) == s.(c := low, b := high, pc := next))
      && (op == 0x11 ==> Step(s) == s.(e := low, d := high, pc := next))
      && (op == 0x21 ==> Step(s) == s.(l := low, h := high, pc := next))
      && (op == 0x31 ==> Step(s) == s.(sp := high as int * 0x100 + low as int, pc := next))
  {
    Disassembler.ThreeByteOpsUseThree(s.memory[s.pc]);
  }

  /** STAX B and MOV M,A write the accumulator to the cell the pair addresses and change
      no other cell or register. */
  lemma StoreWritesOneCell(s: State)
    requires CanStep(s) && s.memory[s.pc] in {0x02, 0x77}
    ensures var addr := if s.memory[s.pc] == 0x02 then s.b as int * 0x100 + s.c as int
                        else s.h as int * 0x100 + s.l as int;
      var r := Step(s);
      && addr < |s.memory| && |r.memory| == |s.memory|
      && r.memory[addr] == s.a
      && (forall i | 0 <= i < |s.memory| && i != addr :: r.memory[i] == s.memory[i])
      && r == s.(memory := r.memory, pc := s.pc + 1)
  {
  }

  /** LDAX B and LDAX D load the accumulator from the cell the pair addresses. */
  lemma LoadReadsPairAddress(s: State)
    requires CanStep(s) && s.memory[s.pc] in {0x0a, 0x1a}
    ensures var addr := if s.memory[s.pc] == 0x0a then s.b as int * 0x100 + s.c as int
                        else s.d as int * 0x100 + s.e as int;
      addr < |s.memory| && Step(s) == s.(a := s.memory[addr], pc := s.pc + 1)
  {
  }

  /** Opcode 0x87 behaves exactly as 0x8F (ADC A): it doubles the accumulator and adds
      the carry. */
  lemma Op87IsAdcA(s: State)
    requires CanStep(s) && s.memory[s.pc] == 0x87
    ensures CanStep(s.(memory := s.memory[s.pc := 0x8f]))
    ensures Step(s) == Step(s.(memory := s.memory[s.pc := 0x8f])).(memory := s.memory)
    ensures Step(s).a == (2 * s.a as int + if s.cc.cy then 1 else 0) % 0x100
  {
  }

  /** Opcode 0x8E adds memory[hl] without the carry: its result does not depend on CY,
      unlike its neighbour 0x8F. */
  lemma AdcMIgnoresCarry(s: State)
    requires CanStep(s) && s.memory[s.pc] == 0x8e
    ensures var addr := s.h as int * 0x100 + s.l as int;
      addr < |s.memory| && Step(s).a == (s.a as int + s.memory[addr] as int) % 0x100
    ensures CanStep(s.(cc := s.cc.(cy := !s.cc.cy)))
    ensures Step(s) == Step(s.(cc := s.cc.(cy := !s.cc.cy)))
  {
  }

  /** `setup_state` of the tests: 64,000 zero bytes and sp at 100. */
  function SetupState(): (s: State)
    ensures |s.memory| == MEMORY_SIZE && s.sp == 100 && s.pc == 0
  {
    Initial(Zeros(MEMORY_SIZE), 0xF000).(sp := 100)
  }

  /** JMP to bytes 0x11, 0x22 lands on 0x2211. */
  lemma JmpScenario()
    ensures var s := SetupState().(memory := Zeros(MEMORY_SIZE)[0 := 0xc3][1 := 0x11][2 := 0x22]);
      CanStep(s) && Step(s).pc == 0x2211
  {
  }

  /** CALL at 0x1234 to 0x2211 pushes 0x1237 as 0x12 at 99 and 0x37 at 98. */
  lemma CallScenario()
    ensures var s := SetupState().(pc := 0x1234,
                                   memory := Zeros(MEMORY_SIZE)[0x1234 := 0xcd][0x1235 := 0x11][0x1236 := 0x22]);
      && CanStep(s)
      && Step(s).pc == 0x2211 && Step(s).sp == 98
      && Step(s).memory[99] == 0x12 && Step(s).memory[98] == 0x37
  {
  }

  /** RET with 0x11 at sp and 0x22 above it returns to 0x1122. */
  lemma RetScenario()
    ensures var s := SetupState().(pc := 0x3456,
                                   memory := Zeros(MEMORY_SIZE)[0x3456 := 0xc9][100 := 0x11][101 := 0x22]);
      CanStep(s) && Step(s).pc == 0x1122 && Step(s).sp == 102
  {
  }

  /** A RET at the target of that CALL goes to 0x3712, not back to 0x1237. */
  lemma CallThenRetScenario()
    ensures var s := SetupState().(pc := 0x1234,
                                   memory := Zeros(MEMORY_SIZE)[0x1234 := 0xcd][0x1235 := 0x11][0x1236 := 0x22][0x2211 := 0xc9]);
      && CanStep(s) && CanStep(Step(s))
      && Step(Step(s)).pc == 0x3712 && Step(Step(s)).sp == 100
  {
  }

  /** An unimplemented two-byte instruction (MVI A) is skipped one byte at a time, so its
      operand byte 0x04 then runs as INR B. */
  lemma SkippedOperandRunsAsOpcode()
    ensures var s := SetupState().(memory := Zeros(MEMORY_SIZE)[0 := 0x3e][1 := 0x04]);
      && Disassembler.BytesUsed(0x3e) == 2
      && CanStep(s) && Step(s).pc == 1
      && CanStep(Step(s)) && Step(Step(s)).b == 1 && Step(Step(s)).pc == 2
  {
  }
}
