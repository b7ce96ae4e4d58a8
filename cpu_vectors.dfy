/** The register-level behaviour of the 6502 instructions exercised by code/ch3.3/src/test.rs:
    the accumulator, the two index registers and the four status flags the tests read (carry,
    zero, overflow, negative), each instruction a function from the register file before to the
    register file after, and the tests' programs as compositions of those functions. */
module CpuVectors {
  import opened Alu

  datatype Status = Status(carry: bool, zero: bool, overflow: bool, negative: bool)

  datatype Cpu = Cpu(a: Byte, x: Byte, y: Byte, status: Status)

  /** The zero and negative flags describe `v`: Z iff it is 0, N iff its bit 7 is set. */
  predicate Reports(s: Status, v: Byte) {
    (s.zero <==> v == 0) && (s.negative <==> Negative(v))
  }

  /** The flag update shared by loads, transfers, increments and decrements. */
  function SetZeroNegative(s: Status, v: Byte): (r: Status)
    ensures Reports(r, v) && r.carry == s.carry && r.overflow == s.overflow
  {
    s.(zero := v == 0, negative := v >= 0x80)
  }

  /** LDA, LDX, LDY: load a register and report it. */
  function Lda(c: Cpu, v: Byte): (r: Cpu)
    ensures r.a == v && r.x == c.x && r.y == c.y && Reports(r.status, v)
    ensures r.status.carry == c.status.carry && r.status.overflow == c.status.overflow
  {
    c.(a := v, status := SetZeroNegative(c.status, v))
  }

  function Ldx(c: Cpu, v: Byte): (r: Cpu)
    ensures r.x == v && r.a == c.a && r.y == c.y && Reports(r.status, v)
    ensures r.status.carry == c.status.carry && r.status.overflow == c.status.overflow
  {
    c.(x := v, status := SetZeroNegative(c.status, v))
  }

  function Ldy(c: Cpu, v: Byte): (r: Cpu)
    ensures r.y == v && r.a == c.a && r.x == c.x && Reports(r.status, v)
    ensures r.status.carry == c.status.carry && r.status.overflow == c.status.overflow
  {
    c.(y := v, status := SetZeroNegative(c.status, v))
  }

  /** TAX, TAY, TXA, TYA: copy one register into another and report the copy. */
  function Tax(c: Cpu): (r: Cpu)
    ensures r == Ldx(c, c.a)
  {
    c.(x := c.a, status := SetZeroNegative(c.status, c.a))
  }

  function Tay(c: Cpu): (r: Cpu)
    ensures r == Ldy(c, c.a)
  {
    c.(y := c.a, status := SetZeroNegative(c.status, c.a))
  }

  function Txa(c: Cpu): (r: Cpu)
    ensures r == Lda(c, c.x)
  {
    c.(a := c.x, status := SetZeroNegative(c.status, c.x))
  }

  function Tya(c: Cpu): (r: Cpu)
    ensures r == Lda(c, c.y)
  {
    c.(a := c.y, status := SetZeroNegative(c.status, c.y))
  }

  /** INX, INY, DEX, DEY: one more or one less, modulo 256, reported. */
  function Inx(c: Cpu): (r: Cpu)
    ensures r.x == Wrap(c.x + 1) && r == Ldx(c, r.x)
  {
    c.(x := Increment(c.x), status := SetZeroNegative(c.status, Increment(c.x)))
  }

  function Iny(c: Cpu): (r: Cpu)
    ensures r.y == Wrap(c.y + 1) && r == Ldy(c, r.y)
  {
    c.(y := Increment(c.y), status := SetZeroNegative(c.status, Increment(c.y)))
  }

  function Dex(c: Cpu): (r: Cpu)
    ensures r.x == Wrap(c.x - 1) && r == Ldx(c, r.x)
  {
    c.(x := Decrement(c.x), status := SetZeroNegative(c.status, Decrement(c.x)))
  }

  function Dey(c: Cpu): (r: Cpu)
    ensures r.y == Wrap(c.y - 1) && r == Ldy(c, r.y)
  {
    c.(y := Decrement(c.y), status := SetZeroNegative(c.status, Decrement(c.y)))
  }

  /** A read-modify-write instruction on memory (INC, DEC): the byte written back and the
      registers after. */
  datatype Stored = Stored(value: Byte, cpu: Cpu)

  function Inc(c: Cpu, m: Byte): (r: Stored)
    ensures r.value == Wrap(m + 1) && r.cpu == c.(status := SetZeroNegative(c.status, r.value))
  {
    Stored(Increment(m), c.(status := SetZeroNegative(c.status, Increment(m))))
  }

  function Dec(c: Cpu, m: Byte): (r: Stored)
    ensures r.value == Wrap(m - 1) && r.cpu == c.(status := SetZeroNegative(c.status, r.value))
  {
    Stored(Decrement(m), c.(status := SetZeroNegative(c.status, Decrement(m))))
  }

  /** SEC, CLC: set or clear the carry; every register and every other flag is kept. */
  function Sec(c: Cpu): (r: Cpu)
    ensures r.status.carry
    ensures r.(status := r.status.(carry := c.status.carry)) == c
  {
    c.(status := c.status.(carry := true))
  }

  function Clc(c: Cpu): (r: Cpu)
    ensures !r.status.carry
    ensures r.(status := r.status.(carry := c.status.carry)) == c
  {
    c.(status := c.status.(carry := false))
  }

  /** ADC: `A + M + C` into the accumulator, with carry, overflow, zero and negative. */
  function Adc(c: Cpu, m: Byte): (r: Cpu)
    ensures r.a + 256 * CarryIn(r.status.carry) == c.a + m + CarryIn(c.status.carry)
    ensures r.status.overflow <==> !(-128 <= Signed(c.a) + Signed(m) + CarryIn(c.status.carry) < 128)
    ensures Reports(r.status, r.a) && r.x == c.x && r.y == c.y
  {
    var s := AddWithCarry(c.a, m, c.status.carry);
    c.(a := s.value, status := Status(s.carry, s.value == 0, s.overflow, Negative(s.value)))
  }

  /** SBC as the tests assert it: `A - M` with no borrow taken in, the carry set iff no borrow
      goes out, whatever the carry held before. */
  function Sbc(c: Cpu, m: Byte): (r: Cpu)
    ensures r.a == Wrap(c.a - m)
    ensures r.status.carry <==> c.a >= m
    ensures r.status.overflow <==> !(-128 <= Signed(c.a) - Signed(m) < 128)
    ensures Reports(r.status, r.a) && r.x == c.x && r.y == c.y
  {
    var s := SubWithBorrow(c.a, m, true);
    c.(a := s.value, status := Status(s.carry, s.value == 0, s.overflow, Negative(s.value)))
  }

  /** The 6502's own SBC, which takes the carry flag in as "no borrow". */
  function Sbc6502(c: Cpu, m: Byte): (r: Cpu)
    ensures r.a == Wrap(c.a - m - (1 - CarryIn(c.status.carry)))
    ensures r.status.carry <==> c.a - m - (1 - CarryIn(c.status.carry)) >= 0
    ensures Reports(r.status, r.a) && r.x == c.x && r.y == c.y
  {
    var s := SubWithBorrow(c.a, m, c.status.carry);
    c.(a := s.value, status := Status(s.carry, s.value == 0, s.overflow, Negative(s.value)))
  }

  /** The tested SBC is the 6502's exactly when the carry is set beforehand; with the carry
      clear, the 6502 result is one less. */
  lemma SbcAgainst6502(c: Cpu, m: Byte)
    ensures c.status.carry ==> Sbc(c, m) == Sbc6502(c, m)
    ensures !c.status.carry ==> Sbc6502(c, m).a == Decrement(Sbc(c, m).a)
  {
  }

  /** CMP, CPX, CPY: the flags of `reg - M`; registers and overflow unchanged. */
  function CompareWith(c: Cpu, reg: Byte, m: Byte): (r: Cpu)
    ensures r.status.carry <==> reg >= m
    ensures r.status.zero <==> reg == m
    ensures r.status.negative <==> Negative(Wrap(reg - m))
    ensures r == c.(status := r.status) && r.status.overflow == c.status.overflow
  {
    var f := Compare(reg, m);
    c.(status := c.status.(carry := f.carry, zero := f.zero, negative := f.negative))
  }

  function Cmp(c: Cpu, m: Byte): (r: Cpu)
    ensures (r.status.carry <==> c.a >= m) && (r.status.zero <==> c.a == m)
    ensures r.status.negative <==> Negative(Wrap(c.a - m))
    ensures r == c.(status := r.status) && r.status.overflow == c.status.overflow
  {
    CompareWith(c, c.a, m)
  }

  function Cpx(c: Cpu, m: Byte): (r: Cpu)
    ensures (r.status.carry <==> c.x >= m) && (r.status.zero <==> c.x == m)
    ensures r.status.negative <==> Negative(Wrap(c.x - m))
    ensures r == c.(status := r.status) && r.status.overflow == c.status.overflow
  {
    CompareWith(c, c.x, m)
  }

  function Cpy(c: Cpu, m: Byte): (r: Cpu)
    ensures (r.status.carry <==> c.y >= m) && (r.status.zero <==> c.y == m)
    ensures r.status.negative <==> Negative(Wrap(c.y - m))
    ensures r == c.(status := r.status) && r.status.overflow == c.status.overflow
  {
    CompareWith(c, c.y, m)
  }

  /** ASL, LSR, ROL, ROR on the accumulator: the shifted byte, reported, with the bit shifted
      out in the carry. */
  function ShiftA(c: Cpu, s: Shift): (r: Cpu)
    ensures r.a == s.value && r.status.carry == s.carry && Reports(r.status, r.a)
    ensures r.x == c.x && r.y == c.y && r.status.overflow == c.status.overflow
  {
    c.(a := s.value, status := SetZeroNegative(c.status, s.value).(carry := s.carry))
  }

  function AslA(c: Cpu): (r: Cpu)
    ensures r.a == Wrap(2 * c.a) && (r.status.carry <==> Negative(c.a))
  {
    ShiftA(c, ShiftLeft(c.a))
  }

  function LsrA(c: Cpu): (r: Cpu)
    ensures r.a == c.a / 2 && (r.status.carry <==> c.a % 2 == 1)
  {
    ShiftA(c, ShiftRight(c.a))
  }

  function RolA(c: Cpu): (r: Cpu)
    ensures r.a + 256 * CarryIn(r.status.carry) == 2 * c.a + CarryIn(c.status.carry)
  {
    ShiftA(c, RotateLeft(c.a, c.status.carry))
  }

  function RorA(c: Cpu): (r: Cpu)
    ensures 2 * r.a + CarryIn(r.status.carry) == c.a + 256 * CarryIn(c.status.carry)
  {
    ShiftA(c, RotateRight(c.a, c.status.carry))
  }

  /** BIT: Z from `A & M`, N and V copied from bits 7 and 6 of `M`; registers and carry
      unchanged. */
  function Bit(c: Cpu, m: Byte): (r: Cpu)
    ensures r == c.(status := r.status) && r.status.carry == c.status.carry
    ensures var f := BitFlags(c.a as bv8, m as bv8);
      r.status.zero == f.zero && r.status.negative == f.negative && r.status.overflow == f.overflow
  {
    var f := BitFlags(c.a as bv8, m as bv8);
    c.(status := c.status.(zero := f.zero, overflow := f.overflow, negative := f.negative))
  }

  /** The state `load_and_run` starts a program in, as far as the tests see it: the carry is
      clear, as the first ADC vector needs, and A is 0, as TAX run alone needs to give X = 0. */
  predicate Reset(c: Cpu) {
    !c.status.carry && c.a == 0
  }

  // The tests' vectors. Each program runs from a reset state; a trailing BRK is not modelled.

  /** LDA #$05; LDA #$00; LDA #$05 then TAX, TAY; LDA #$C0, TAX, INX; LDA #$FF, TAX, INX, INX. */
  lemma LoadTransferVectors(c: Cpu)
    ensures Lda(c, 0x05).a == 0x05 && !Lda(c, 0x05).status.zero && !Lda(c, 0x05).status.negative
    ensures Lda(c, 0x00).a == 0 && Lda(c, 0x00).status.zero
    ensures var t := Tax(Lda(c, 0x05)); t.a == 0x05 && t.x == 0x05 && !t.status.zero && !t.status.negative
    ensures var t := Tay(Lda(c, 0x05)); t.a == 0x05 && t.y == 0x05 && !t.status.zero && !t.status.negative
    ensures Inx(Tax(Lda(c, 0xC0))).x == 0xC1
    ensures Inx(Inx(Tax(Lda(c, 0xFF)))).x == 1
  {
  }

  /** LDA #$00 then TAX; TAX alone from the reset state, where A is 0. */
  lemma TaxZeroVectors(c: Cpu)
    requires Reset(c)
    ensures var t := Tax(Lda(c, 0)); t.a == 0 && t.x == 0 && t.status.zero
    ensures Tax(c).x == 0 && Tax(c).status.zero
  {
  }

  /** LDX #$10, TXA and LDA #$10, TAY, TYA give A = 0x10 with Z and N clear; the same programs
      with 0 give A = 0 with Z set; LDA #$10, TAY, INY gives Y = 0x11. */
  lemma TransferVectors(c: Cpu)
    ensures var t := Txa(Ldx(c, 0x10)); t.a == 0x10 && !t.status.zero && !t.status.negative
    ensures var t := Tya(Tay(Lda(c, 0x10))); t.a == 0x10 && !t.status.zero && !t.status.negative
    ensures Txa(Ldx(c, 0)).a == 0 && Txa(Ldx(c, 0)).status.zero
    ensures Tya(Tay(Lda(c, 0))).a == 0 && Tya(Tay(Lda(c, 0))).status.zero
    ensures Iny(Tay(Lda(c, 0x10))).y == 0x11
  {
  }

  /** ADC #imm after LDA #imm. */
  lemma AdcVectors(c: Cpu)
    requires Reset(c)
    ensures Adc(Lda(c, 0x10), 0x10).a == 0x20
    ensures var r := Adc(Lda(c, 0x50), 0x50); r.a == 0xA0 && r.status.overflow && r.status.negative && !r.status.carry
    ensures var r := Adc(Lda(c, 0x50), 0xD0); r.a == 0x20 && !r.status.overflow && !r.status.negative && r.status.carry
    ensures var r := Adc(Lda(c, 0xD0), 0x90); r.a == 0x60 && r.status.overflow && !r.status.negative && r.status.carry
    ensures var r := Adc(Lda(c, 0xD0), 0xD0); r.a == 0xA0 && !r.status.overflow && r.status.negative && r.status.carry
  {
  }

  /** SBC #imm after LDA #imm. */
  lemma SbcVectors(c: Cpu)
    requires Reset(c)
    ensures Sbc(Lda(c, 10), 10).a == 0
    ensures var r := Sbc(Lda(c, 0x30), 0x50); r.a == 0xE0 && !r.status.overflow && r.status.negative && !r.status.carry
    ensures var r := Sbc(Lda(c, 0x50), 0xD0); r.a == 0x80 && r.status.overflow && r.status.negative && !r.status.carry
    ensures var r := Sbc(Lda(c, 0xD0), 0x90); r.a == 0x40 && !r.status.overflow && !r.status.negative && r.status.carry
    ensures var r := Sbc(Lda(c, 0xD0), 0xD0); r.a == 0 && !r.status.overflow && !r.status.negative && r.status.carry
  {
  }

  /** CMP, CPY and CPX #imm: equal, greater and lesser. */
  lemma CompareVectors(c: Cpu)
    ensures var r := Cmp(Lda(c, 0x10), 0x10); r.status.carry && r.status.zero && !r.status.negative
    ensures var r := Cmp(Lda(c, 0x11), 0x10); r.status.carry && !r.status.zero && !r.status.negative
    ensures var r := Cmp(Lda(c, 0x10), 0x11); !r.status.carry && !r.status.zero && r.status.negative
    ensures var r := Cpy(Ldy(c, 0x10), 0x10); r.status.carry && r.status.zero && !r.status.negative
    ensures var r := Cpy(Ldy(c, 0x11), 0x10); r.status.carry && !r.status.zero && !r.status.negative
    ensures var r := Cpy(Ldy(c, 0x10), 0x11); !r.status.carry && !r.status.zero && r.status.negative
    ensures var r := Cpx(Ldx(c, 0x10), 0x10); r.status.carry && r.status.zero && !r.status.negative
    ensures var r := Cpx(Ldx(c, 0x11), 0x10); r.status.carry && !r.status.zero && !r.status.negative
    ensures var r := Cpx(Ldx(c, 0x10), 0x11); !r.status.carry && !r.status.zero && r.status.negative
  {
  }

  /** ASL A and LSR A after LDA #imm; ROL A and ROR A after SEC or CLC and LDA #imm. */
  lemma ShiftVectors(c: Cpu)
    requires Reset(c)
    ensures AslA(Lda(c, 0x10)).a == 0x20
    ensures AslA(Lda(c, 0xFF)).a == 0xFE && AslA(Lda(c, 0xFF)).status.carry
    ensures LsrA(Lda(c, 0x10)).a == 0x08
    ensures LsrA(Lda(c, 0xFF)).a == 0x7F && LsrA(Lda(c, 0xFF)).status.carry
    ensures RolA(Lda(Sec(c), 0x10)).a == 0x21
    ensures RolA(Lda(Clc(c), 0xFF)).a == 0xFE && RolA(Lda(Clc(c), 0xFF)).status.carry
    ensures RolA(Lda(Sec(c), 0xFF)).a == 0xFF && RolA(Lda(Sec(c), 0xFF)).status.carry
    ensures RorA(Lda(Sec(c), 0x10)).a == 0x88
    ensures RorA(Lda(Clc(c), 0xFF)).a == 0x7F && RorA(Lda(Clc(c), 0xFF)).status.carry
    ensures RorA(Lda(Sec(c), 0xFF)).a == 0xFF && RorA(Lda(Sec(c), 0xFF)).status.carry
  {
  }

  /** INC and DEC on a zero-page byte; DEX and DEY after LDX or LDY #imm. */
  lemma IncDecVectors(c: Cpu)
    ensures Inc(c, 0x10).value == 0x11
    ensures Inc(c, 0x7F).value == 0x80 && Inc(c, 0x7F).cpu.status.negative
    ensures Inc(c, 0xFF).value == 0 && Inc(c, 0xFF).cpu.status.zero
    ensures Dec(c, 0x10).value == 0x0F
    ensures Dec(c, 0).value == 0xFF && Dec(c, 0).cpu.status.negative
    ensures Dec(c, 1).value == 0 && Dec(c, 1).cpu.status.zero
    ensures Dex(Ldx(c, 1)).x == 0 && Dex(Ldx(c, 1)).status.zero
    ensures Dex(Ldx(c, 0)).x == 0xFF && Dex(Ldx(c, 0)).status.negative
    ensures Dey(Ldy(c, 1)).y == 0 && Dey(Ldy(c, 1)).status.zero
    ensures Dey(Ldy(c, 0)).y == 0xFF && Dey(Ldy(c, 0)).status.negative
  {
  }

  /** BIT with A = 0 and M = %01111111, then A = $FF and M = %11111111. */
  lemma BitVectors(c: Cpu)
    ensures var r := Bit(Lda(c, 0), 0x7F); r.status.zero && !r.status.negative && r.status.overflow
    ensures var r := Bit(Lda(c, 0xFF), 0xFF); !r.status.zero && r.status.negative && r.status.overflow
  {
  }

  /** JMP ($11FF) with $11FF = $35 and $1100 = $10 goes to $1035; JMP ($1150) with $1150 = $40
      and $1151 = $10 goes to $1040. */
  lemma JmpIndirectVectors(mem: Addr -> Byte)
    requires mem(0x11FF) == 0x35 && mem(0x1100) == 0x10
    requires mem(0x1150) == 0x40 && mem(0x1151) == 0x10
    ensures IndirectTarget(mem, 0x11FF) == 0x1035
    ensures IndirectTarget(mem, 0x1150) == 0x1040
  {
  }
}
