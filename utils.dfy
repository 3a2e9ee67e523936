/** Byte-pair conversion and flag derivation (src/emulator/utils.rs). */
module Utils {
  import opened Types

  /** Joins two bytes into a 16-bit value: `(upper << 8) | lower`. */
  function Combine(upper: u8, lower: u8): (r: u16)
    ensures r / 0x100 == upper && r % 0x100 == lower
  {
    upper * 0x100 + lower
  }

  /** Splits a 16-bit value into (upper, lower): `(num >> 8, num & 0xff)`. */
  function Split(num: u16): (r: (u8, u8))
    ensures Combine(r.0, r.1) == num
  {
    (num / 0x100, num % 0x100)
  }

  lemma SplitCombine(upper: u8, lower: u8)
    ensures Split(Combine(upper, lower)) == (upper, lower)
  {
  }

  /** The unit test: 0xab and 0xcd combine to 0xabcd and split back. */
  lemma CombineSplitExample()
    ensures Combine(0xab, 0xcd) == 0xabcd && Split(0xabcd) == (0xab, 0xcd)
  {
  }

  function Pow2(k: nat): (r: nat)
    ensures r >= 1
  {
    if k == 0 then 1 else 2 * Pow2(k - 1)
  }

  /** Number of set bits among the low `size` bits of `v`. */
  function PopCount(v: nat, size: nat): nat
  {
    if size == 0 then 0 else v % 2 + PopCount(v / 2, size - 1)
  }

  /** Even parity of the low `size` bits of `v`: the meaning of `parity(v, size)`. */
  predicate EvenParity(v: nat, size: nat)
  {
    PopCount(v, size) % 2 == 0
  }

  /** Division is determined by any quotient and in-range remainder. */
  lemma DivModUnique(v: int, d: int, q: int, r: int)
    requires d > 0 && v == d * q + r && 0 <= r < d
    ensures v / d == q && v % d == r
  {
    var q0, r0 := v / d, v % d;
    var k := q - q0;
    assert d * k == r0 - r;
    if k > 0 {
      MulAtLeast(d, k);
    }
  }

  lemma {:induction false} MulAtLeast(d: nat, k: nat)
    requires k >= 1
    ensures d * k >= d
  {
    if k > 1 {
      MulAtLeast(d, k - 1);
      assert d * k == d * (k - 1) + d;
    }
  }

  lemma ModOfDouble(v: nat, p: nat)
    requires p >= 1
    ensures (v % (2 * p)) % 2 == v % 2
    ensures (v % (2 * p)) / 2 == (v / 2) % p
  {
    var q, r := v / (2 * p), v % (2 * p);
    var pq := p * q;
    assert v == 2 * pq + r;
    DivModUnique(r, 2, r / 2, r % 2);
    DivModUnique(v, 2, pq + r / 2, r % 2);
    DivModUnique(v / 2, p, q, r / 2);
  }

  /** Bits at or above `size` do not affect the count. */
  lemma {:induction false} PopCountLowBits(v: nat, size: nat)
    ensures PopCount(v % Pow2(size), size) == PopCount(v, size)
  {
    if size > 0 {
      ModOfDouble(v, Pow2(size - 1));
      PopCountLowBits(v / 2, size - 1);
    }
  }

  /** `parity` ignores every bit at or above `size`. */
  lemma {:induction false} ParityIgnoresHighBits(v: nat, size: nat, high: nat)
    ensures EvenParity(v % Pow2(size) + high * Pow2(size), size) == EvenParity(v, size)
  {
    var w := v % Pow2(size) + high * Pow2(size);
    DivModUnique(w, Pow2(size), high, v % Pow2(size));
    PopCountLowBits(w, size);
    PopCountLowBits(v, size);
  }

  /** The unit tests of `parity`. */
  lemma ParityExamples()
    ensures EvenParity(0x00, 4) && EvenParity(0x00, 5)
    ensures !EvenParity(0x01, 5) && !EvenParity(0x10, 5) && !EvenParity(0x08, 5)
    ensures EvenParity(0x44, 8) && EvenParity(0x20, 2)
    ensures EvenParity(0xff, 8) && EvenParity(0x0ff, 8)
  {
  }

  /** `parity`: masks `value_to_check` to its low `size` bits, then counts the set bits
      one at a time; true when the count is even. A `size` of 64 or more overflows the
      shift that builds the mask. */
  method Parity(valueToCheck: usize, size: usize) returns (even: bool)
    requires size < 64
    ensures even == EvenParity(valueToCheck, size)
  {
    var setBits := 0;
    var mask := Pow2(size);
    mask := mask - 1;
    // value_to_check & mask keeps exactly the low `size` bits
    var temp: nat := valueToCheck % (mask + 1);
    PopCountLowBits(valueToCheck, size);
    for number := 0 to size
      invariant setBits + PopCount(temp, size - number) == PopCount(valueToCheck, size)
    {
      if temp % 2 == 1 {
        setBits := setBits + 1;
      }
      temp := temp / 2;
    }
    even := setBits % 2 == 0;
  }

  /** `update_flags`: Z, S and P are judged on the low byte of the widened result,
      CY on the whole of it; AC and PAD are left alone. */
  function UpdateFlags(value: u16, codes: ConditionCodes): (r: ConditionCodes)
    ensures r.z <==> value % 0x100 == 0
    ensures r.s <==> value % 0x100 >= 0x80
    ensures r.cy <==> value > 0xFF
    ensures r.p == EvenParity(value % 0x100, 8)
    ensures r.ac == codes.ac && r.pad == codes.pad
  {
    var low := value % 0x100;
    assert (low / 0x80) % 2 == 1 <==> low >= 0x80;
    assert Pow2(8) == 0x100;
    PopCountLowBits(value, 8);
    codes.(z := low == 0, s := (low / 0x80) % 2 == 1, cy := value > MAX_U8, p := EvenParity(value, 8))
  }
}
