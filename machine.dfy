/** The processor state of src/emulator/mod.rs: the `State8080` record whose fields the
    emulator updates in place, and the same fields as a value (`State`), over which the
    instruction semantics are stated as functions. */
module Machine {
  import opened Types
  import opened Utils

  datatype State = State(
    a: u8, b: u8, c: u8, d: u8, e: u8, h: u8, l: u8,
    sp: u16, pc: u16,
    memory: seq<u8>,
    cc: ConditionCodes,
    intEnable: u8)

  /** The driver resizes every program image to this many bytes. */
  const MEMORY_SIZE: nat := 64000

  /** A zero-filled memory of `n` bytes. */
  function Zeros(n: nat): (m: seq<u8>)
    ensures |m| == n && forall i | 0 <= i < n :: m[i] == 0
  {
    seq(n, _ => 0)
  }

  /** The state `new` builds: registers zero, flags clear, the given stack pointer and a
      copy of the program image. */
  function Initial(gameData: seq<u8>, sp: u16): (s: State)
    ensures s.memory == gameData && s.sp == sp && s.pc == 0 && s.cc == ClearCodes
    ensures s.a == s.b == s.c == s.d == s.e == s.h == s.l == s.intEnable == 0
  {
    State(0, 0, 0, 0, 0, 0, 0, sp, 0, gameData, ClearCodes, 0)
  }

  class State8080 {
    var a: u8  // the accumulator
    var b: u8
    var c: u8
    var d: u8
    var e: u8
    var h: u8
    var l: u8
    var sp: u16
    var pc: u16
    const memory: array<u8>
    var cc: ConditionCodes
    var intEnable: u8

    ghost function View(): State
      reads this, memory
    {
      State(a, b, c, d, e, h, l, sp, pc, memory[..], cc, intEnable)
    }

    /** `new`: the stack pointer starts at 0xf000 and memory is a copy of the image. */
    constructor (gameData: seq<u8>)
      ensures View() == Initial(gameData, 0xF000)
      ensures fresh(memory)
    {
      a, b, c, d, e, h, l := 0, 0, 0, 0, 0, 0, 0;
      sp, pc := 0xF000, 0;
      memory := new u8[|gameData|](i requires 0 <= i < |gameData| => gameData[i]);
      cc := ClearCodes;
      intEnable := 0;
    }

    /** `get_and_advance`: the byte at pc, then pc moves on by one. Reading past the end
        of memory and a pc overflow both panic in the source. */
    method GetAndAdvance() returns (value: u8)
      requires pc < memory.Length && pc < 0xFFFF
      modifies this
      ensures value == memory[old(pc)]
      ensures View() == old(View()).(pc := old(pc) + 1)
    {
      value := memory[pc];
      pc := pc + 1;
    }

    /** `get_double`: two operand bytes, low byte first, as one word. */
    method GetDouble() returns (value: u16)
      requires pc + 1 < memory.Length && pc + 2 <= 0xFFFF
      modifies this
      ensures value == memory[old(pc)] as int + 0x100 * memory[old(pc) + 1] as int
      ensures View() == old(View()).(pc := old(pc) + 2)
    {
      var lower := GetAndAdvance();
      var upper := GetAndAdvance();
      value := Combine(upper, lower);
    }
  }
}
