/** The rotate unit (src/emulator/logical.rs). Each Rust function overwrites `*register`
    and `cc.cy`; here each returns the new register and flags. */
module Logical {
  import opened Types
  import opened Utils

  /** `rotate_left_with_carry`: CY := bit 7; shift left; bit 0 := CY. A circular rotate:
      bits 6..0 move up one place and the old bit 7 becomes bit 0. */
  function RotateLeftWithCarry(register: u8, cc: ConditionCodes): (r: (u8, ConditionCodes))
    ensures r.1 == cc.(cy := register >= 0x80)
    ensures r.0 / 2 == register % 0x80 && r.0 % 2 == register / 0x80
  {
    var cy := register / 0x80 == 1;
    var shifted := (register * 2) % 0x100;
    (if cy then shifted + 1 else shifted, cc.(cy := cy))
  }

  /** `rotate_right_with_carry`: CY := bit 0, but the register is then shifted LEFT and
      bit 0 is refilled from CY, so the old bit 7 is lost and bit 0 is kept. */
  function RotateRightWithCarry(register: u8, cc: ConditionCodes): (r: (u8, ConditionCodes))
    ensures r.1 == cc.(cy := register % 2 == 1)
    ensures r.0 / 2 == register % 0x80 && r.0 % 2 == register % 2
  {
    var cy := register % 2 == 1;
    var shifted := (register * 2) % 0x100;
    (if cy then shifted + 1 else shifted, cc.(cy := cy))
  }

  /** The register after `n` left rotations. */
  function RotateLeftTimes(register: u8, cc: ConditionCodes, n: nat): u8
    decreases n
  {
    if n == 0 then register
    else var (r, cc') := RotateLeftWithCarry(register, cc); RotateLeftTimes(r, cc', n - 1)
  }

  /** One left rotation doubles the register modulo 0xFF and fixes 0 and 0xFF. */
  lemma RotateLeftModulo(register: u8, cc: ConditionCodes)
    ensures var r := RotateLeftWithCarry(register, cc).0;
      && r % 0xFF == (2 * register) % 0xFF
      && (r == 0 <==> register == 0)
      && (r == 0xFF <==> register == 0xFF)
  {
    var r := RotateLeftWithCarry(register, cc).0;
    var h := register / 0x80;
    assert 2 * register == r + 0xFF * h;
    DivModUnique(2 * register, 0xFF, r / 0xFF + h, r % 0xFF);
  }

  lemma {:induction false} RotateLeftTimesModulo(register: u8, cc: ConditionCodes, n: nat)
    ensures var r := RotateLeftTimes(register, cc, n);
      && r % 0xFF == (register * Pow2(n)) % 0xFF
      && (r == 0 <==> register == 0)
      && (r == 0xFF <==> register == 0xFF)
    decreases n
  {
    if n > 0 {
      var step := RotateLeftWithCarry(register, cc);
      var r1, cc1 := step.0, step.1;
      RotateLeftModulo(register, cc);
      RotateLeftTimesModulo(r1, cc1, n - 1);
      assert RotateLeftTimes(register, cc, n) == RotateLeftTimes(r1, cc1, n - 1);
      var p := Pow2(n - 1);
      MulMod(r1, 2 * register, p);
      DoubleShift(register, n);
    }
  }

  lemma DoubleShift(x: int, n: nat)
    requires n > 0
    ensures x * Pow2(n) == (2 * x) * Pow2(n - 1)
  {
    var p := Pow2(n - 1);
    assert x * (2 * p) == (2 * x) * p;
  }

  /** Congruence modulo 0xFF is preserved by multiplication. */
  lemma MulMod(x: int, y: int, p: nat)
    requires x % 0xFF == y % 0xFF
    ensures (x * p) % 0xFF == (y * p) % 0xFF
  {
    var k := (x - y) / 0xFF;
    assert x - y == 0xFF * k;
    assert x * p == y * p + 0xFF * (k * p);
    DivModUnique(x * p, 0xFF, (y * p) / 0xFF + k * p, (y * p) % 0xFF);
  }

  lemma {:induction false} Pow2Add(a: nat, b: nat)
    ensures Pow2(a + b) == Pow2(a) * Pow2(b)
    decreases b
  {
    if b > 0 {
      Pow2Add(a, b - 1);
      assert Pow2(a) * Pow2(b) == Pow2(a) * (2 * Pow2(b - 1));
    }
  }

  /** 2^(8k) is 1 modulo 0xFF. */
  lemma {:induction false} Pow2ByteMultiple(k: nat)
    ensures Pow2(8 * k) % 0xFF == 1
  {
    if k > 0 {
      Pow2ByteMultiple(k - 1);
      Pow2Add(8 * (k - 1), 8);
      assert Pow2(8) == 0x100;
      MulMod(0x100, 1, Pow2(8 * (k - 1)));
    }
  }

  /** Any multiple of eight left rotations restores the register. */
  lemma RotateLeftByteMultipleRestores(register: u8, cc: ConditionCodes, k: nat)
    ensures RotateLeftTimes(register, cc, 8 * k) == register
  {
    var n := 8 * k;
    RotateLeftTimesModulo(register, cc, n);
    var r := RotateLeftTimes(register, cc, n);
    Pow2ByteMultiple(k);
    MulMod(Pow2(n), 1, register);
    assert r % 0xFF == register % 0xFF;
    if register != 0 && register != 0xFF {
      DivModUnique(register, 0xFF, 0, register);
      DivModUnique(r, 0xFF, 0, r);
    }
  }

  /** The "right" rotate is not one: 0x02 becomes 0x04 (a right rotate gives 0x01), and
      0x80 becomes 0x00, so distinct registers can collide. */
  lemma RotateRightShiftsLeft(cc: ConditionCodes)
    ensures RotateRightWithCarry(0x02, cc).0 == 0x04
    ensures RotateRightWithCarry(0x80, cc).0 == RotateRightWithCarry(0x00, cc).0
  {
  }
}
