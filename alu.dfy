/** The byte arithmetic of the 6502 that the instruction tests of code/ch3.3/src/test.rs pin
    down: add with carry, subtract with borrow, compare, the four shifts and rotates, increment
    and decrement, all on unsigned bytes 0..255 with the two's-complement reading used for the
    overflow flag. */
module Alu {

  /** A `u8`. */
  type Byte = x: int | 0 <= x < 256

  /** The byte a wider result is truncated to (the source's `as u8`). */
  function Wrap(n: int): (b: Byte)
    ensures (n - b) % 256 == 0
    ensures 0 <= n < 256 ==> b == n
  {
    n % 256
  }

  /** Bit 7, the sign bit of a byte. */
  predicate Negative(v: Byte) {
    v >= 0x80
  }

  /** The two's-complement value of a byte. */
  function Signed(v: Byte): (s: int)
    ensures -128 <= s < 128
    ensures s < 0 <==> Negative(v)
    ensures Wrap(s) == v
  {
    if v < 0x80 then v else v - 0x100
  }

  function CarryIn(c: bool): (n: int)
    ensures n == 0 || n == 1
  {
    if c then 1 else 0
  }

  /** The result of an addition: the byte kept, the carry out and the signed overflow. */
  datatype Sum = Sum(value: Byte, carry: bool, overflow: bool)

  /** ADC: the nine-bit sum `a + m + c` split into a byte and a carry; overflow when the
      result's sign differs from the signs of both operands. The contract states what that
      means: the carry and the byte together are the exact unsigned sum, and overflow is
      exactly the case where the signed sum leaves -128..127. */
  function AddWithCarry(a: Byte, m: Byte, c: bool): (r: Sum)
    ensures r.value + 256 * CarryIn(r.carry) == a + m + CarryIn(c)
    ensures r.carry <==> a + m + CarryIn(c) > 0xFF
    ensures r.overflow <==> !(-128 <= Signed(a) + Signed(m) + CarryIn(c) < 128)
    ensures !r.overflow ==> Signed(r.value) == Signed(a) + Signed(m) + CarryIn(c)
  {
    var sum := a + m + CarryIn(c);
    var carry := sum > 0xFF;
    var result := if carry then sum - 0x100 else sum;
    Sum(result, carry, Negative(m) != Negative(result) && Negative(a) != Negative(result))
  }

  /** SBC as the 6502 defines it: adding the one's complement of the operand, the carry
      standing for "no borrow". */
  function SubWithBorrow(a: Byte, m: Byte, c: bool): (r: Sum)
    ensures r.value == Wrap(a - m - (1 - CarryIn(c)))
    ensures r.carry <==> a - m - (1 - CarryIn(c)) >= 0
    ensures r.overflow <==> !(-128 <= Signed(a) - Signed(m) - (1 - CarryIn(c)) < 128)
  {
    AddWithCarry(a, 0xFF - m, c)
  }

  /** The flags CMP, CPX and CPY set: those of a subtraction with no borrow, whose result is
      thrown away. */
  datatype Comparison = Comparison(carry: bool, zero: bool, negative: bool)

  function Compare(reg: Byte, m: Byte): (r: Comparison)
    ensures r.carry <==> reg >= m
    ensures r.zero <==> reg == m
    ensures r.negative <==> Negative(Wrap(reg - m))
    ensures r.zero ==> r.carry && !r.negative
  {
    var d := SubWithBorrow(reg, m, true);
    Comparison(d.carry, d.value == 0, Negative(d.value))
  }

  /** The result of a shift or rotate: the byte kept and the bit shifted out, which goes to
      the carry flag. */
  datatype Shift = Shift(value: Byte, carry: bool)

  /** ROL: every bit moves one place up, the old carry enters at bit 0 and bit 7 leaves. */
  function RotateLeft(v: Byte, c: bool): (r: Shift)
    ensures r.value + 256 * CarryIn(r.carry) == 2 * v + CarryIn(c)
    ensures r.carry <==> Negative(v)
    ensures r.value % 2 == CarryIn(c)
  {
    if Negative(v) then Shift(2 * v - 0x100 + CarryIn(c), true) else Shift(2 * v + CarryIn(c), false)
  }

  /** ROR: every bit moves one place down, the old carry enters at bit 7 and bit 0 leaves. */
  function RotateRight(v: Byte, c: bool): (r: Shift)
    ensures 2 * r.value + CarryIn(r.carry) == v + 256 * CarryIn(c)
    ensures r.carry <==> v % 2 == 1
    ensures Negative(r.value) <==> c
  {
    Shift(v / 2 + 0x80 * CarryIn(c), v % 2 == 1)
  }

  /** ASL: a rotate left with 0 entering at bit 0. */
  function ShiftLeft(v: Byte): (r: Shift)
    ensures r.value == Wrap(2 * v) && (r.carry <==> Negative(v))
  {
    RotateLeft(v, false)
  }

  /** LSR: a rotate right with 0 entering at bit 7. */
  function ShiftRight(v: Byte): (r: Shift)
    ensures r.value == v / 2 && (r.carry <==> v % 2 == 1)
    ensures !Negative(r.value)
  {
    RotateRight(v, false)
  }

  /** INC, INX, INY: add one, 0xFF wrapping round to 0. */
  function Increment(v: Byte): (r: Byte)
    ensures r == Wrap(v + 1)
    ensures r == 0 <==> v == 0xFF
  {
    if v == 0xFF then 0 else v + 1
  }

  /** DEC, DEX, DEY: subtract one, 0 wrapping round to 0xFF. */
  function Decrement(v: Byte): (r: Byte)
    ensures r == Wrap(v - 1)
    ensures r == 0xFF <==> v == 0
  {
    if v == 0 then 0xFF else v - 1
  }

  /** Rotating left and then right through the carry gives back the byte and the carry. */
  lemma RotateRoundTrip(v: Byte, c: bool)
    ensures var l := RotateLeft(v, c); RotateRight(l.value, l.carry) == Shift(v, c)
    ensures var r := RotateRight(v, c); RotateLeft(r.value, r.carry) == Shift(v, c)
  {
  }

  /** Increment and decrement undo each other. */
  lemma IncrementDecrement(v: Byte)
    ensures Decrement(Increment(v)) == v && Increment(Decrement(v)) == v
  {
  }

  /** Subtracting `m` with no borrow and adding `m` back with no carry restores `a`, and the
      two carries are complementary unless `m` is 0. */
  lemma SubtractAddBack(a: Byte, m: Byte)
    ensures AddWithCarry(SubWithBorrow(a, m, true).value, m, false).value == a
    ensures m != 0 ==> (SubWithBorrow(a, m, true).carry <==> !AddWithCarry(SubWithBorrow(a, m, true).value, m, false).carry)
  {
  }

  /** Bit `i` of a byte is set. */
  predicate BitSet(b: bv8, i: nat)
    requires i < 8
  {
    b & (1 << i) != 0
  }

  /** The flags BIT sets from the accumulator `a` and the operand `m`. */
  datatype BitTest = BitTest(zero: bool, overflow: bool, negative: bool)

  /** BIT: Z when `a` and `m` share no set bit, N from bit 7 of `m`, V from bit 6 of `m`. */
  function BitFlags(a: bv8, m: bv8): (r: BitTest)
    ensures r.zero <==> forall i: nat :: i < 8 ==> !(BitSet(a, i) && BitSet(m, i))
    ensures r.negative <==> BitSet(m, 7)
    ensures r.overflow <==> BitSet(m, 6)
  {
    BitCommon(a, m);
    BitTest(a & m == 0, m & 0x40 != 0, m & 0x80 != 0)
  }

  lemma BitCommon(a: bv8, m: bv8)
    ensures a & m == 0 <==> forall i: nat :: i < 8 ==> !(BitSet(a, i) && BitSet(m, i))
  {
    if a & m != 0 {
      if (a & m) & 1 != 0 { assert BitSet(a, 0) && BitSet(m, 0); }
      else if (a & m) & 2 != 0 { assert BitSet(a, 1) && BitSet(m, 1); }
      else if (a & m) & 4 != 0 { assert BitSet(a, 2) && BitSet(m, 2); }
      else if (a & m) & 8 != 0 { assert BitSet(a, 3) && BitSet(m, 3); }
      else if (a & m) & 16 != 0 { assert BitSet(a, 4) && BitSet(m, 4); }
      else if (a & m) & 32 != 0 { assert BitSet(a, 5) && BitSet(m, 5); }
      else if (a & m) & 64 != 0 { assert BitSet(a, 6) && BitSet(m, 6); }
      else if (a & m) & 128 != 0 { assert BitSet(a, 7) && BitSet(m, 7); }
    }
  }

  /** Addresses of the 64 KiB CPU address space. */
  type Addr = x: int | 0 <= x < 0x10000

  /** The address JMP (indirect) takes the high byte of the target from: the byte after the
      pointer, except that a pointer at the last byte of a page wraps to the start of the same
      page instead of carrying into the next one. */
  function PointerHigh(ptr: Addr): (h: Addr)
    ensures h / 0x100 == ptr / 0x100
    ensures h % 0x100 == (ptr + 1) % 0x100
  {
    if ptr % 0x100 == 0xFF then ptr - 0xFF else ptr + 1
  }

  /** JMP (indirect): the little-endian address stored at the pointer. */
  function IndirectTarget(mem: Addr -> Byte, ptr: Addr): (t: Addr)
    ensures t % 0x100 == mem(ptr) && t / 0x100 == mem(PointerHigh(ptr))
  {
    mem(ptr) + 0x100 * mem(PointerHigh(ptr))
  }

  /** The high byte is read from the next address, as a plain 16-bit read would, exactly when
      the pointer is not at the end of a page. */
  lemma PageWrapQuirk(ptr: Addr)
    ensures PointerHigh(ptr) == (ptr + 1) % 0x10000 <==> ptr % 0x100 != 0xFF
  {
  }
}
