/** The arithmetic unit (src/emulator/arithmetic.rs). Each Rust function updates `&mut u8`
    registers and the flag struct in place; here each returns the new register values and
    flags, and the caller assigns them. */
module Arithmetic {
  import opened Types
  import opened Utils

  /** `add_core`: the accumulator plus `value`, plus one when `useCarry` and CY are both set,
      computed in 16 bits; flags from the widened sum, accumulator from its low byte. */
  function AddCore(a: u8, cc: ConditionCodes, value: u8, useCarry: bool): (r: (u8, ConditionCodes))
    ensures var carryIn := if useCarry && cc.cy then 1 else 0;
      r.0 + (if r.1.cy then 0x100 else 0) == a + value + carryIn
    ensures r.1.z <==> r.0 == 0
    ensures r.1.s <==> r.0 >= 0x80
    ensures r.1.p == EvenParity(r.0, 8)
    ensures r.1.ac == cc.ac && r.1.pad == cc.pad
  {
    var answer := a + value + if useCarry && cc.cy then 1 else 0;
    assert answer % 0x100 == if answer > 0xFF then answer - 0x100 else answer;
    (answer % 0x100, UpdateFlags(answer, cc))
  }

  /** `add`: never uses the incoming carry. */
  function Add(a: u8, cc: ConditionCodes, value: u8): (r: (u8, ConditionCodes))
    ensures r.0 == (a + value) % 0x100
    ensures r.1.cy <==> a + value > 0xFF
  {
    AddCore(a, cc, value, false)
  }

  /** `adc`: adds the incoming carry as well. */
  function Adc(a: u8, cc: ConditionCodes, value: u8): (r: (u8, ConditionCodes))
    ensures r.0 == (a + value + if cc.cy then 1 else 0) % 0x100
    ensures r.1.cy <==> a + value + (if cc.cy then 1 else 0) > 0xFF
  {
    AddCore(a, cc, value, true)
  }

  /** ADD does not depend on the incoming carry; ADC differs from it by exactly that carry. */
  lemma AddIgnoresCarryAdcAddsIt(a: u8, cc: ConditionCodes, value: u8)
    ensures Add(a, cc, value) == Add(a, cc.(cy := !cc.cy), value)
    ensures !cc.cy ==> Adc(a, cc, value) == Add(a, cc, value)
    ensures cc.cy ==> Adc(a, cc, value).0 == (Add(a, cc, value).0 + 1) % 0x100
  {
  }

  /** The unit test: adding 0, 1, 1, 200, 202 from a zero accumulator. */
  lemma AddSequenceExample()
    ensures var s1 := Add(0, ClearCodes, 0);
      && s1.0 == 0 && s1.1.z && !s1.1.s && !s1.1.cy && s1.1.p
      && var s2 := Add(s1.0, s1.1, 1);
      && s2.0 == 1 && !s2.1.z && !s2.1.s && !s2.1.cy && !s2.1.p
      && var s3 := Add(s2.0, s2.1, 1);
      && s3.0 == 2 && !s3.1.z && !s3.1.s && !s3.1.cy && !s3.1.p
      && var s4 := Add(s3.0, s3.1, 200);
      && s4.0 == 202 && !s4.1.z && s4.1.s && !s4.1.cy && s4.1.p
      && var s5 := Add(s4.0, s4.1, 202);
      && s5.0 == 148 && !s5.1.z && s5.1.s && s5.1.cy && !s5.1.p
  {
    assert EvenParity(0, 8) && !EvenParity(1, 8) && !EvenParity(2, 8);
    assert EvenParity(202, 8) && !EvenParity(148, 8);
  }

  /** `dad`: HL := HL + BC byte by byte. A byte whose sum exceeds 0xFF is set to 0 rather
      than wrapped; only CY is written, and it is set exactly when the 16-bit sum overflows. */
  function Dad(upperSave: u8, lowerSave: u8, upper2: u8, lower2: u8, cc: ConditionCodes)
    : (r: (u8, u8, ConditionCodes))
    ensures r.2 == cc.(cy := Combine(upperSave, lowerSave) + Combine(upper2, lower2) > 0xFFFF)
    ensures r.1 == if lowerSave + lower2 > 0xFF then 0 else lowerSave + lower2
    ensures var upper := upperSave + upper2 + (if lowerSave + lower2 > 0xFF then 1 else 0);
      r.0 == if upper > 0xFF then 0 else upper
  {
    var tempLower := lowerSave + lower2;
    var tempUpper := upperSave + upper2;
    var (lower', tempUpper') := if tempLower > MAX_U8 then (0, tempUpper + 1) else (tempLower, tempUpper);
    if tempUpper' > MAX_U8 then (0, lower', cc.(cy := true))
    else (tempUpper', lower', cc.(cy := false))
  }

  /** When neither byte sum overflows, DAD is the 16-bit sum. */
  lemma DadIsSumWithoutByteOverflow(h: u8, l: u8, b: u8, c: u8, cc: ConditionCodes)
    requires l + c <= 0xFF && h + b <= 0xFF
    ensures var r := Dad(h, l, b, c, cc);
      Combine(r.0, r.1) == Combine(h, l) + Combine(b, c) && !r.2.cy
  {
  }

  /** DAD zeroes an overflowing byte: 0x00ff + 0x0002 leaves HL = 0x0100, not 0x0101. */
  lemma DadZeroesOverflowingByte(cc: ConditionCodes)
    ensures var r := Dad(0x00, 0xFF, 0x00, 0x02, cc);
      Combine(r.0, r.1) == 0x0100 && (Combine(0x00, 0xFF) + Combine(0x00, 0x02)) % 0x10000 == 0x0101
  {
  }

  /** `inx`: add one to the low byte and carry into the high byte; no flags. */
  function Inx(upper: u8, lower: u8): (r: (u8, u8))
    ensures Combine(r.0, r.1) == (Combine(upper, lower) + 1) % 0x10000
  {
    var (lower', carry) := if lower < MAX_U8 then (lower + 1, false) else (0, true);
    var upper' := if !carry then upper else if upper < MAX_U8 then upper + 1 else 0;
    (upper', lower')
  }

  /** The unit test of `inx`: 0x0000 -> 0x0001, 0x00ff -> 0x0100, 0xffff -> 0x0000. */
  lemma InxExamples()
    ensures Inx(0, 0) == (0, 1) && Inx(0, 0xFF) == (1, 0) && Inx(0xFF, 0xFF) == (0, 0)
  {
  }

  /** `dcx`: a nonzero low byte is decremented; a zero low byte stays 0 and the borrow
      goes into the high byte. The low byte therefore never becomes 0xFF, and the pair
      drops by 0x100 instead of 1 whenever the low byte was 0. */
  function Dcx(upper: u8, lower: u8): (r: (u8, u8))
    ensures lower > 0 ==> r == (upper, lower - 1)
    ensures lower == 0 ==> r == ((upper + 0xFF) % 0x100, 0)
    ensures r.1 != 0xFF
    ensures Combine(r.0, r.1) == (Combine(upper, lower) + 0x10000 - (if lower > 0 then 1 else 0x100)) % 0x10000
  {
    var carry := !(lower > 0);
    var lower' := if lower > 0 then lower - 1 else lower;
    var upper' := if !carry then upper else if upper > 0 then upper - 1 else 0xFF;
    (upper', lower')
  }

  /** DCX undoes INX exactly when INX did not carry into the high byte. */
  lemma DcxUndoesInxIff(upper: u8, lower: u8)
    ensures var (u, l) := Inx(upper, lower); Dcx(u, l) == (upper, lower) <==> lower != 0xFF
  {
  }

  /** INX undoes DCX exactly when DCX did not borrow. */
  lemma InxUndoesDcxIff(upper: u8, lower: u8)
    ensures var (u, l) := Dcx(upper, lower); Inx(u, l) == (upper, lower) <==> lower != 0
  {
  }

  /** The pair 0x00ff is not restored by INX followed by DCX. */
  lemma DcxInxCounterexample()
    ensures var (u, l) := Inx(0x00, 0xFF); Dcx(u, l) == (0x00, 0x00)
  {
  }

  /** `inr`: 8-bit increment; flags from the 9-bit sum, so 0xFF -> 0 sets CY. */
  function Inr(value: u8, codes: ConditionCodes): (r: (u8, ConditionCodes))
    ensures r.0 == (value + 1) % 0x100
    ensures r.1.z <==> r.0 == 0
    ensures r.1.s <==> r.0 >= 0x80
    ensures r.1.p == EvenParity(r.0, 8)
    ensures r.1.cy <==> value == 0xFF
    ensures r.1.ac == codes.ac && r.1.pad == codes.pad
  {
    var answer := value + 1;
    (answer % 0x100, UpdateFlags(answer, codes))
  }

  /** The unit test of `inr`: 0 -> 1 -> 2 -> 3, then 255 -> 0 with Z, P and CY set. */
  lemma InrExamples()
    ensures var r1 := Inr(0, ClearCodes);
      && r1.0 == 1 && !r1.1.z && !r1.1.s && !r1.1.p && !r1.1.cy
      && var r2 := Inr(r1.0, r1.1);
      && r2.0 == 2 && !r2.1.z && !r2.1.s && !r2.1.p && !r2.1.cy
      && var r3 := Inr(r2.0, r2.1);
      && r3.0 == 3 && !r3.1.z && !r3.1.s && r3.1.p && !r3.1.cy
      && var r4 := Inr(255, r3.1);
      && r4.0 == 0 && r4.1.z && !r4.1.s && r4.1.p && r4.1.cy
  {
  }

  /** `dcr`: 8-bit decrement that wraps 0 to 0xFF; flags are taken from the already
      wrapped byte, so CY is always cleared. */
  function Dcr(value: u8, codes: ConditionCodes): (r: (u8, ConditionCodes))
    ensures r.0 == (value + 0xFF) % 0x100
    ensures r.1.z <==> r.0 == 0
    ensures r.1.s <==> r.0 >= 0x80
    ensures r.1.p == EvenParity(r.0, 8)
    ensures !r.1.cy
    ensures r.1.ac == codes.ac && r.1.pad == codes.pad
  {
    if value > 0 then
      var answer := value - 1;
      assert answer % 0x100 == answer;
      (answer, UpdateFlags(answer, codes))
    else
      (0xFF, UpdateFlags(0xFF, codes))
  }

  /** DCR of 0 gives 0xFF with S and P set and CY clear. */
  lemma DcrZeroExample(codes: ConditionCodes)
    ensures var r := Dcr(0, codes); r.0 == 0xFF && r.1.s && r.1.p && !r.1.z && !r.1.cy
  {
  }
}
