/** Machine integer widths and the flag register shared by both emulators. */
module Types {

  /** Rust `u8`: registers and memory cells. */
  type u8 = x: int | 0 <= x < 0x100

  /** Rust `u16`: the program counter, the stack pointer and register pairs. */
  type u16 = x: int | 0 <= x < 0x1_0000

  /** Rust `usize` on a 64-bit host: the operands of `parity`. */
  type usize = x: int | 0 <= x < 0x1_0000_0000_0000_0000

  const MAX_U8: u8 := 0xFF

  /** The condition codes: Zero, Sign, Parity, Carry, Auxiliary carry and a padding bit.
      No modelled operation writes `ac` or `pad`. */
  datatype ConditionCodes = ConditionCodes(z: bool, s: bool, p: bool, cy: bool, ac: bool, pad: bool)

  /** The all-clear flags every fresh state starts with. */
  const ClearCodes := ConditionCodes(false, false, false, false, false, false)
}
