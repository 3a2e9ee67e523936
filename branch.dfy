/** The control-transfer unit (src/emulator/branch.rs). Each operation is a method that
    updates a `State8080` in place, proved equal to a function giving the state after it
    (`AfterJmp`, ...), about which the properties are stated. Every u16 overflow and
    out-of-range memory index panics in the source and is a precondition here. */
module Branch {
  import opened Types
  import opened Utils
  import opened Machine

  /** `jmp`: the target is read from the instruction stream low byte first, through two
      `get_and_advance` calls. */
  function AfterJmp(s: State): (r: State)
    requires s.pc + 1 < |s.memory| && s.pc + 2 <= 0xFFFF
    ensures r.pc == s.memory[s.pc] as int + 0x100 * s.memory[s.pc + 1] as int
    ensures r == s.(pc := r.pc)
  {
    var lower := s.memory[s.pc];
    var upper := s.memory[s.pc + 1];
    s.(pc := Combine(upper, lower))
  }

  /** `conditional_jmp`: a taken branch is `jmp`; otherwise the two address bytes are
      skipped unread. */
  function AfterConditionalJmp(condition: bool, s: State): (r: State)
    requires s.pc + 2 <= 0xFFFF
    requires condition ==> s.pc + 1 < |s.memory|
    ensures condition ==> r == AfterJmp(s)
    ensures !condition ==> r == s.(pc := s.pc + 2)
  {
    if condition then AfterJmp(s) else s.(pc := s.pc + 2)
  }

  /** `call`: pushes pc + 2 high byte at sp - 1 and low byte at sp - 2, lowers sp by 2,
      then jumps. The target is read after the two stores. */
  function AfterCall(s: State): (r: State)
    requires s.pc + 2 <= 0xFFFF && s.pc + 1 < |s.memory|
    requires 2 <= s.sp && s.sp - 1 < |s.memory|
    ensures var ret := s.pc + 2;
      && |r.memory| == |s.memory|
      && r.memory[s.sp - 1] == ret / 0x100
      && r.memory[s.sp - 2] == ret % 0x100
      && (forall i | 0 <= i < |s.memory| && i != s.sp - 1 && i != s.sp - 2 :: r.memory[i] == s.memory[i])
      && r.sp == s.sp - 2
      && r.pc == r.memory[s.pc] as int + 0x100 * r.memory[s.pc + 1] as int
      && r == s.(memory := r.memory, sp := r.sp, pc := r.pc)
  {
    var returnAddress := s.pc + 2;
    var memory := s.memory[s.sp - 1 := (returnAddress / 0x100) % 0x100][s.sp - 2 := returnAddress % 0x100];
    AfterJmp(s.(memory := memory, sp := s.sp - 2))
  }

  /** `ret`: the HIGH byte is read from memory[sp] and the low byte from memory[sp + 1];
      sp rises by 2 and memory is untouched. */
  function AfterRet(s: State): (r: State)
    requires s.sp + 1 < |s.memory| && s.sp + 2 <= 0xFFFF
    ensures r.pc == s.memory[s.sp] as int * 0x100 + s.memory[s.sp + 1] as int
    ensures r == s.(pc := r.pc, sp := s.sp + 2)
  {
    var upper := s.memory[s.sp];
    var lower := s.memory[s.sp + 1];
    s.(pc := Combine(upper, lower), sp := s.sp + 2)
  }

  /** RET straight after CALL restores sp but returns to the return address with its two
      bytes swapped; it lands on pc + 2 only when both bytes of that address are equal. */
  lemma RetAfterCallSwapsReturnAddress(s: State)
    requires s.pc + 2 <= 0xFFFF && s.pc + 1 < |s.memory|
    requires 2 <= s.sp && s.sp - 1 < |s.memory|
    ensures var ret := s.pc + 2; var r := AfterRet(AfterCall(s));
      && r.sp == s.sp
      && r.pc == (ret % 0x100) * 0x100 + ret / 0x100
      && (r.pc == ret <==> ret % 0x100 == ret / 0x100)
  {
    var ret := s.pc + 2;
    var c := AfterCall(s);
    assert c.memory[c.sp] == ret % 0x100 && c.memory[c.sp + 1] == ret / 0x100;
    var hi, lo := ret / 0x100, ret % 0x100;
    assert ret == hi * 0x100 + lo;
  }

  method Jmp(state: State8080)
    requires state.pc + 1 < state.memory.Length && state.pc + 2 <= 0xFFFF
    modifies state
    ensures state.View() == AfterJmp(old(state.View()))
  {
    state.pc := state.GetDouble();
  }

  method ConditionalJmp(condition: bool, state: State8080)
    requires state.pc + 2 <= 0xFFFF
    requires condition ==> state.pc + 1 < state.memory.Length
    modifies state
    ensures state.View() == AfterConditionalJmp(condition, old(state.View()))
  {
    if condition {
      Jmp(state);
    } else {
      state.pc := state.pc + 2;
    }
  }

  method Call(state: State8080)
    requires state.pc + 2 <= 0xFFFF && state.pc + 1 < state.memory.Length
    requires 2 <= state.sp && state.sp - 1 < state.memory.Length
    modifies state, state.memory
    ensures state.View() == AfterCall(old(state.View()))
  {
    var returnAddress := state.pc + 2;
    state.memory[state.sp - 1] := (returnAddress / 0x100) % 0x100;
    state.memory[state.sp - 2] := returnAddress % 0x100;
    state.sp := state.sp - 2;
    Jmp(state);
  }

  method Ret(state: State8080)
    requires state.sp + 1 < state.memory.Length && state.sp + 2 <= 0xFFFF
    modifies state
    ensures state.View() == AfterRet(old(state.View()))
  {
    var upper := state.memory[state.sp];
    var lower := state.memory[state.sp + 1];
    state.pc := Combine(upper, lower);
    state.sp := state.sp + 2;
  }
}
