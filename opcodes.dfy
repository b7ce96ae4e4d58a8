/** The 6502 instruction table of code/ch3.3/src/opcodes.rs: one record per supported opcode
    byte with its mnemonic, its length in bytes, its base cycle count and its addressing mode,
    and the lookup map the CPU decodes with. */
module Opcodes {
  import opened Alu

  /** The CPU's `AddressingMode`. */
  datatype Mode =
    | NoneAddressing | Immediate | ZeroPage | ZeroPageX | ZeroPageY
    | Absolute | AbsoluteX | AbsoluteY | IndirectX | IndirectY

  /** The mnemonics of the table (the source spells them as strings). */
  datatype Mnemonic =
    | BRK | NOP | ADC | SBC | AND | EOR | ORA | ASL | LSR | ROL | ROR | INC | INX | INY
    | DEC | DEX | DEY | CMP | CPY | CPX | JMP | JSR | RTS | RTI | BNE | BVS | BVC | BMI
    | BEQ | BCS | BCC | BPL | BIT | LDA | LDX | LDY | STA | STX | STY | CLD | CLI | CLV
    | CLC | SEC | SEI | SED | TAX | TAY | TSX | TXA | TXS | TYA | PHA | PLA | PHP | PLP

  /** `OpCode`. */
  datatype OpCode = Op(code: Byte, mnemonic: Mnemonic, len: nat, cycles: nat, mode: Mode)

  predicate IsBranch(m: Mnemonic) {
    m.BNE? || m.BVS? || m.BVC? || m.BMI? || m.BEQ? || m.BCS? || m.BCC? || m.BPL?
  }

  /** The length an instruction must have: the opcode byte plus its operand, one byte for the
      zero-page, immediate and indirect modes and two for the absolute ones. Instructions
      without an addressing mode take no operand, except the jumps (a two-byte target) and the
      branches (a one-byte displacement). */
  function ExpectedLen(o: OpCode): nat {
    match o.mode
    case Immediate | ZeroPage | ZeroPageX | ZeroPageY | IndirectX | IndirectY => 2
    case Absolute | AbsoluteX | AbsoluteY => 3
    case NoneAddressing => if o.mnemonic.JMP? || o.mnemonic.JSR? then 3 else if IsBranch(o.mnemonic) then 2 else 1
  }

  /** The shape every row of the table has. */
  predicate RowOk(o: OpCode) {
    o.len == ExpectedLen(o) && 2 <= o.cycles <= 7
  }

  const Control: seq<OpCode> := [
    Op(0x00, BRK, 1, 7, NoneAddressing),
    Op(0xEA, NOP, 1, 2, NoneAddressing)
  ]

  const Adc: seq<OpCode> := [
    Op(0x69, ADC, 2, 2, Immediate),
    Op(0x65, ADC, 2, 3, ZeroPage),
    Op(0x75, ADC, 2, 4, ZeroPageX),
    Op(0x6D, ADC, 3, 4, Absolute),
    Op(0x7D, ADC, 3, 4, AbsoluteX),
    Op(0x79, ADC, 3, 4, AbsoluteY),
    Op(0x61, ADC, 2, 6, IndirectX),
    Op(0x71, ADC, 2, 5, IndirectY)
  ]

  const Sbc: seq<OpCode> := [
    Op(0xE9, SBC, 2, 2, Immediate),
    Op(0xE5, SBC, 2, 3, ZeroPage),
    Op(0xF5, SBC, 2, 4, ZeroPageX),
    Op(0xED, SBC, 3, 4, Absolute),
    Op(0xFD, SBC, 3, 4, AbsoluteX),
    Op(0xF9, SBC, 3, 4, AbsoluteY),
    Op(0xE1, SBC, 2, 6, IndirectX),
    Op(0xF1, SBC, 2, 5, IndirectY)
  ]

  const And: seq<OpCode> := [
    Op(0x29, AND, 2, 2, Immediate),
    Op(0x25, AND, 2, 3, ZeroPage),
    Op(0x35, AND, 2, 4, ZeroPageX),
    Op(0x2D, AND, 3, 4, Absolute),
    Op(0x3D, AND, 3, 4, AbsoluteX),
    Op(0x39, AND, 3, 4, AbsoluteY),
    Op(0x21, AND, 2, 6, IndirectX),
    Op(0x31, AND, 2, 5, IndirectY)
  ]

  const Eor: seq<OpCode> := [
    Op(0x49, EOR, 2, 2, Immediate),
    Op(0x45, EOR, 2, 3, ZeroPage),
    Op(0x55, EOR, 2, 4, ZeroPageX),
    Op(0x4D, EOR, 3, 4, Absolute),
    Op(0x5D, EOR, 3, 4, AbsoluteX),
    Op(0x59, EOR, 3, 4, AbsoluteY),
    Op(0x41, EOR, 2, 6, IndirectX),
    Op(0x51, EOR, 2, 5, IndirectY)
  ]

  const Ora: seq<OpCode> := [
    Op(0x09, ORA, 2, 2, Immediate),
    Op(0x05, ORA, 2, 3, ZeroPage),
    Op(0x15, ORA, 2, 4, ZeroPageX),
    Op(0x0D, ORA, 3, 4, Absolute),
    Op(0x1D, ORA, 3, 4, AbsoluteX),
    Op(0x19, ORA, 3, 4, AbsoluteY),
    Op(0x01, ORA, 2, 6, IndirectX),
    Op(0x11, ORA, 2, 5, IndirectY)
  ]

  const Asl: seq<OpCode> := [
    Op(0x0A, ASL, 1, 2, NoneAddressing),
    Op(0x06, ASL, 2, 5, ZeroPage),
    Op(0x16, ASL, 2, 6, ZeroPageX),
    Op(0x0E, ASL, 3, 6, Absolute),
    Op(0x1E, ASL, 3, 7, AbsoluteX)
  ]

  const Lsr: seq<OpCode> := [
    Op(0x4A, LSR, 1, 2, NoneAddressing),
    Op(0x46, LSR, 2, 5, ZeroPage),
    Op(0x56, LSR, 2, 6, ZeroPageX),
    Op(0x4E, LSR, 3, 6, Absolute),
    Op(0x5E, LSR, 3, 7, AbsoluteX)
  ]

  const Rol: seq<OpCode> := [
    Op(0x2A, ROL, 1, 2, NoneAddressing),
    Op(0x26, ROL, 2, 5, ZeroPage),
    Op(0x36, ROL, 2, 6, ZeroPageX),
    Op(0x2E, ROL, 3, 6, Absolute),
    Op(0x3E, ROL, 3, 7, AbsoluteX)
  ]

  const Ror: seq<OpCode> := [
    Op(0x6A, ROR, 1, 2, NoneAddressing),
    Op(0x66, ROR, 2, 5, ZeroPage),
    Op(0x76, ROR, 2, 6, ZeroPageX),
    Op(0x6E, ROR, 3, 6, Absolute),
    Op(0x7E, ROR, 3, 7, AbsoluteX)
  ]

  const Inc: seq<OpCode> := [
    Op(0xE6, INC, 2, 5, ZeroPage),
    Op(0xF6, INC, 2, 6, ZeroPageX),
    Op(0xEE, INC, 3, 6, Absolute),
    Op(0xFE, INC, 3, 7, AbsoluteX),
    Op(0xE8, INX, 1, 2, NoneAddressing),
    Op(0xC8, INY, 1, 2, NoneAddressing)
  ]

  const Dec: seq<OpCode> := [
    Op(0xC6, DEC, 2, 5, ZeroPage),
    Op(0xD6, DEC, 2, 6, ZeroPageX),
    Op(0xCE, DEC, 3, 6, Absolute),
    Op(0xDE, DEC, 3, 7, AbsoluteX),
    Op(0xCA, DEX, 1, 2, NoneAddressing),
    Op(0x88, DEY, 1, 2, NoneAddressing)
  ]

  const Cmp: seq<OpCode> := [
    Op(0xC9, CMP, 2, 2, Immediate),
    Op(0xC5, CMP, 2, 3, ZeroPage),
    Op(0xD5, CMP, 2, 4, ZeroPageX),
    Op(0xCD, CMP, 3, 4, Absolute),
    Op(0xDD, CMP, 3, 4, AbsoluteX),
    Op(0xD9, CMP, 3, 4, AbsoluteY),
    Op(0xC1, CMP, 2, 6, IndirectX),
    Op(0xD1, CMP, 2, 5, IndirectY)
  ]

  const CpyCpx: seq<OpCode> := [
    Op(0xC0, CPY, 2, 2, Immediate),
    Op(0xC4, CPY, 2, 3, ZeroPage),
    Op(0xCC, CPY, 3, 4, Absolute),
    Op(0xE0, CPX, 2, 2, Immediate),
    Op(0xE4, CPX, 2, 3, ZeroPage),
    Op(0xEC, CPX, 3, 4, Absolute)
  ]

  const Jumps: seq<OpCode> := [
    Op(0x4C, JMP, 3, 3, NoneAddressing),
    Op(0x6C, JMP, 3, 5, NoneAddressing),
    Op(0x20, JSR, 3, 6, NoneAddressing),
    Op(0x60, RTS, 1, 6, NoneAddressing),
    Op(0x40, RTI, 1, 6, NoneAddressing)
  ]

  const Branches: seq<OpCode> := [
    Op(0xD0, BNE, 2, 2, NoneAddressing),
    Op(0x70, BVS, 2, 2, NoneAddressing),
    Op(0x50, BVC, 2, 2, NoneAddressing),
    Op(0x30, BMI, 2, 2, NoneAddressing),
    Op(0xF0, BEQ, 2, 2, NoneAddressing),
    Op(0xB0, BCS, 2, 2, NoneAddressing),
    Op(0x90, BCC, 2, 2, NoneAddressing),
    Op(0x10, BPL, 2, 2, NoneAddressing)
  ]

  const Bit: seq<OpCode> := [
    Op(0x24, BIT, 2, 3, ZeroPage),
    Op(0x2C, BIT, 3, 4, Absolute)
  ]

  const Lda: seq<OpCode> := [
    Op(0xA9, LDA, 2, 2, Immediate),
    Op(0xA5, LDA, 2, 3, ZeroPage),
    Op(0xB5, LDA, 2, 4, ZeroPageX),
    Op(0xAD, LDA, 3, 4, Absolute),
    Op(0xBD, LDA, 3, 4, AbsoluteX),
    Op(0xB9, LDA, 3, 4, AbsoluteY),
    Op(0xA1, LDA, 2, 6, IndirectX),
    Op(0xB1, LDA, 2, 5, IndirectY)
  ]

  const Ldx: seq<OpCode> := [
    Op(0xA2, LDX, 2, 2, Immediate),
    Op(0xA6, LDX, 2, 3, ZeroPage),
    Op(0xB6, LDX, 2, 4, ZeroPageY),
    Op(0xAE, LDX, 3, 4, Absolute),
    Op(0xBE, LDX, 3, 4, AbsoluteY)
  ]

  const Ldy: seq<OpCode> := [
    Op(0xA0, LDY, 2, 2, Immediate),
    Op(0xA4, LDY, 2, 3, ZeroPage),
    Op(0xB4, LDY, 2, 4, ZeroPageX),
    Op(0xAC, LDY, 3, 4, Absolute),
    Op(0xBC, LDY, 3, 4, AbsoluteX)
  ]

  const Sta: seq<OpCode> := [
    Op(0x85, STA, 2, 3, ZeroPage),
    Op(0x95, STA, 2, 4, ZeroPageX),
    Op(0x8D, STA, 3, 4, Absolute),
    Op(0x9D, STA, 3, 5, AbsoluteX),
    Op(0x99, STA, 3, 5, AbsoluteY),
    Op(0x81, STA, 2, 6, IndirectX),
    Op(0x91, STA, 2, 6, IndirectY)
  ]

  const StxSty: seq<OpCode> := [
    Op(0x86, STX, 2, 3, ZeroPage),
    Op(0x96, STX, 2, 4, ZeroPageY),
    Op(0x8E, STX, 3, 4, Absolute),
    Op(0x84, STY, 2, 3, ZeroPage),
    Op(0x94, STY, 2, 4, ZeroPageX),
    Op(0x8C, STY, 3, 4, Absolute)
  ]

  const Flags: seq<OpCode> := [
    Op(0xD8, CLD, 1, 2, NoneAddressing),
    Op(0x58, CLI, 1, 2, NoneAddressing),
    Op(0xB8, CLV, 1, 2, NoneAddressing),
    Op(0x18, CLC, 1, 2, NoneAddressing),
    Op(0x38, SEC, 1, 2, NoneAddressing),
    Op(0x78, SEI, 1, 2, NoneAddressing),
    Op(0xF8, SED, 1, 2, NoneAddressing)
  ]

  const Transfers: seq<OpCode> := [
    Op(0xAA, TAX, 1, 2, NoneAddressing),
    Op(0xA8, TAY, 1, 2, NoneAddressing),
    Op(0xBA, TSX, 1, 2, NoneAddressing),
    Op(0x8A, TXA, 1, 2, NoneAddressing),
    Op(0x9A, TXS, 1, 2, NoneAddressing),
    Op(0x98, TYA, 1, 2, NoneAddressing)
  ]

  const Stack: seq<OpCode> := [
    Op(0x48, PHA, 1, 3, NoneAddressing),
    Op(0x68, PLA, 1, 4, NoneAddressing),
    Op(0x08, PHP, 1, 3, NoneAddressing),
    Op(0x28, PLP, 1, 4, NoneAddressing)
  ]

  /** The rows up to the compare instructions, and the rest. */
  const FirstHalf: seq<OpCode> :=
    Control + Adc + Sbc + And + Eor + Ora + Asl
    + Lsr + Rol + Ror + Inc + Dec + Cmp
  const SecondHalf: seq<OpCode> :=
    CpyCpx + Jumps + Branches + Bit + Lda + Ldx
    + Ldy + Sta + StxSty + Flags + Transfers + Stack

  /** `CPU_OPS_CODES`, in the source's order. */
  const Table: seq<OpCode> := FirstHalf + SecondHalf

  /** The row of the table whose code is `c`, or -1: decoded by the high and then the low
      nibble of `c`. */
  function RowOf(c: Byte): int {
    match c / 16
    case 0x0 =>
      (match c % 16
      case 0x0 => 0
      case 0x9 => 34
      case 0x5 => 35
      case 0xD => 37
      case 0x1 => 40
      case 0xA => 42
      case 0x6 => 43
      case 0xE => 45
      case 0x8 => 149
      case _ => -1)
    case 0x1 =>
      (match c % 16
      case 0x5 => 36
      case 0xD => 38
      case 0x9 => 39
      case 0x1 => 41
      case 0x6 => 44
      case 0xE => 46
      case 0x0 => 100
      case 0x8 => 137
      case _ => -1)
    case 0x2 =>
      (match c % 16
      case 0x9 => 18
      case 0x5 => 19
      case 0xD => 21
      case 0x1 => 24
      case 0xA => 52
      case 0x6 => 53
      case 0xE => 55
      case 0x0 => 90
      case 0x4 => 101
      case 0xC => 102
      case 0x8 => 150
      case _ => -1)
    case 0x3 =>
      (match c % 16
      case 0x5 => 20
      case 0xD => 22
      case 0x9 => 23
      case 0x1 => 25
      case 0x6 => 54
      case 0xE => 56
      case 0x0 => 96
      case 0x8 => 138
      case _ => -1)
    case 0x4 =>
      (match c % 16
      case 0x9 => 26
      case 0x5 => 27
      case 0xD => 29
      case 0x1 => 32
      case 0xA => 47
      case 0x6 => 48
      case 0xE => 50
      case 0xC => 88
      case 0x0 => 92
      case 0x8 => 147
      case _ => -1)
    case 0x5 =>
      (match c % 16
      case 0x5 => 28
      case 0xD => 30
      case 0x9 => 31
      case 0x1 => 33
      case 0x6 => 49
      case 0xE => 51
      case 0x0 => 95
      case 0x8 => 135
      case _ => -1)
    case 0x6 =>
      (match c % 16
      case 0x9 => 2
      case 0x5 => 3
      case 0xD => 5
      case 0x1 => 8
      case 0xA => 57
      case 0x6 => 58
      case 0xE => 60
      case 0xC => 89
      case 0x0 => 91
      case 0x8 => 148
      case _ => -1)
    case 0x7 =>
      (match c % 16
      case 0x5 => 4
      case 0xD => 6
      case 0x9 => 7
      case 0x1 => 9
      case 0x6 => 59
      case 0xE => 61
      case 0x0 => 94
      case 0x8 => 139
      case _ => -1)
    case 0x8 =>
      (match c % 16
      case 0x8 => 73
      case 0x5 => 121
      case 0xD => 123
      case 0x1 => 126
      case 0x6 => 128
      case 0xE => 130
      case 0x4 => 131
      case 0xC => 133
      case 0xA => 144
      case _ => -1)
    case 0x9 =>
      (match c % 16
      case 0x0 => 99
      case 0x5 => 122
      case 0xD => 124
      case 0x9 => 125
      case 0x1 => 127
      case 0x6 => 129
      case 0x4 => 132
      case 0xA => 145
      case 0x8 => 146
      case _ => -1)
    case 0xA =>
      (match c % 16
      case 0x9 => 103
      case 0x5 => 104
      case 0xD => 106
      case 0x1 => 109
      case 0x2 => 111
      case 0x6 => 112
      case 0xE => 114
      case 0x0 => 116
      case 0x4 => 117
      case 0xC => 119
      case 0xA => 141
      case 0x8 => 142
      case _ => -1)
    case 0xB =>
      (match c % 16
      case 0x0 => 98
      case 0x5 => 105
      case 0xD => 107
      case 0x9 => 108
      case 0x1 => 110
      case 0x6 => 113
      case 0xE => 115
      case 0x4 => 118
      case 0xC => 120
      case 0x8 => 136
      case 0xA => 143
      case _ => -1)
    case 0xC =>
      (match c % 16
      case 0x8 => 67
      case 0x6 => 68
      case 0xE => 70
      case 0xA => 72
      case 0x9 => 74
      case 0x5 => 75
      case 0xD => 77
      case 0x1 => 80
      case 0x0 => 82
      case 0x4 => 83
      case 0xC => 84
      case _ => -1)
    case 0xD =>
      (match c % 16
      case 0x6 => 69
      case 0xE => 71
      case 0x5 => 76
      case 0xD => 78
      case 0x9 => 79
      case 0x1 => 81
      case 0x0 => 93
      case 0x8 => 134
      case _ => -1)
    case 0xE =>
      (match c % 16
      case 0xA => 1
      case 0x9 => 10
      case 0x5 => 11
      case 0xD => 13
      case 0x1 => 16
      case 0x6 => 62
      case 0xE => 64
      case 0x8 => 66
      case 0x0 => 85
      case 0x4 => 86
      case 0xC => 87
      case _ => -1)
    case 0xF =>
      (match c % 16
      case 0x5 => 12
      case 0xD => 14
      case 0x9 => 15
      case 0x1 => 17
      case 0x6 => 63
      case 0xE => 65
      case 0x0 => 97
      case 0x8 => 140
      case _ => -1)
    case _ => -1
  }

  /** Every row of `g` has the shape `RowOk` and is the row `RowOf` finds for its code, counting
      rows from `base`. */
  ghost predicate Certified(g: seq<OpCode>, base: int) {
    forall i | 0 <= i < |g| :: RowOk(g[i]) && RowOf(g[i].code) == base + i
  }

  lemma Append(a: seq<OpCode>, b: seq<OpCode>, base: int)
    requires Certified(a, base) && Certified(b, base + |a|)
    ensures Certified(a + b, base)
  {
    forall i | 0 <= i < |a + b|
      ensures RowOk((a + b)[i]) && RowOf((a + b)[i].code) == base + i
    {
      if i >= |a| {
        assert (a + b)[i] == b[i - |a|];
      }
    }
  }

  lemma CertifiedControl()
    ensures Certified(Control, 0)
  {
  }

  lemma CertifiedAdc()
    ensures Certified(Adc, 2)
  {
  }

  lemma CertifiedSbc()
    ensures Certified(Sbc, 10)
  {
  }

  lemma CertifiedAnd()
    ensures Certified(And, 18)
  {
  }

  lemma CertifiedEor()
    ensures Certified(Eor, 26)
  {
  }

  lemma CertifiedOra()
    ensures Certified(Ora, 34)
  {
  }

  lemma CertifiedAsl()
    ensures Certified(Asl, 42)
  {
  }

  lemma CertifiedLsr()
    ensures Certified(Lsr, 47)
  {
  }

  lemma CertifiedRol()
    ensures Certified(Rol, 52)
  {
  }

  lemma CertifiedRor()
    ensures Certified(Ror, 57)
  {
  }

  lemma CertifiedInc()
    ensures Certified(Inc, 62)
  {
  }

  lemma CertifiedDec()
    ensures Certified(Dec, 68)
  {
  }

  lemma CertifiedCmp()
    ensures Certified(Cmp, 74)
  {
  }

  lemma CertifiedCpyCpx()
    ensures Certified(CpyCpx, 82)
  {
  }

  lemma CertifiedJumps()
    ensures Certified(Jumps, 88)
  {
  }

  lemma CertifiedBranches()
    ensures Certified(Branches, 93)
  {
  }

  lemma CertifiedBit()
    ensures Certified(Bit, 101)
  {
  }

  lemma CertifiedLda()
    ensures Certified(Lda, 103)
  {
  }

  lemma CertifiedLdx()
    ensures Certified(Ldx, 111)
  {
  }

  lemma CertifiedLdy()
    ensures Certified(Ldy, 116)
  {
  }

  lemma CertifiedSta()
    ensures Certified(Sta, 121)
  {
  }

  lemma CertifiedStxSty()
    ensures Certified(StxSty, 128)
  {
  }

  lemma CertifiedFlags()
    ensures Certified(Flags, 134)
  {
  }

  lemma CertifiedTransfers()
    ensures Certified(Transfers, 141)
  {
  }

  lemma CertifiedStack()
    ensures Certified(Stack, 147)
  {
  }

  lemma CertifiedFirstHalf()
    ensures Certified(FirstHalf, 0) && |FirstHalf| == 82
  {
    var prefix := Control;
    CertifiedControl();
    CertifiedAdc();
    Append(prefix, Adc, 0);
    prefix := prefix + Adc;
    CertifiedSbc();
    Append(prefix, Sbc, 0);
    prefix := prefix + Sbc;
    CertifiedAnd();
    Append(prefix, And, 0);
    prefix := prefix + And;
    CertifiedEor();
    Append(prefix, Eor, 0);
    prefix := prefix + Eor;
    CertifiedOra();
    Append(prefix, Ora, 0);
    prefix := prefix + Ora;
    CertifiedAsl();
    Append(prefix, Asl, 0);
    prefix := prefix + Asl;
    CertifiedLsr();
    Append(prefix, Lsr, 0);
    prefix := prefix + Lsr;
    CertifiedRol();
    Append(prefix, Rol, 0);
    prefix := prefix + Rol;
    CertifiedRor();
    Append(prefix, Ror, 0);
    prefix := prefix + Ror;
    CertifiedInc();
    Append(prefix, Inc, 0);
    prefix := prefix + Inc;
    CertifiedDec();
    Append(prefix, Dec, 0);
    prefix := prefix + Dec;
    CertifiedCmp();
    Append(prefix, Cmp, 0);
    prefix := prefix + Cmp;
    assert prefix == FirstHalf;
  }

  lemma CertifiedSecondHalf()
    ensures Certified(SecondHalf, 82)
  {
    var prefix := CpyCpx;
    CertifiedCpyCpx();
    CertifiedJumps();
    Append(prefix, Jumps, 82);
    prefix := prefix + Jumps;
    CertifiedBranches();
    Append(prefix, Branches, 82);
    prefix := prefix + Branches;
    CertifiedBit();
    Append(prefix, Bit, 82);
    prefix := prefix + Bit;
    CertifiedLda();
    Append(prefix, Lda, 82);
    prefix := prefix + Lda;
    CertifiedLdx();
    Append(prefix, Ldx, 82);
    prefix := prefix + Ldx;
    CertifiedLdy();
    Append(prefix, Ldy, 82);
    prefix := prefix + Ldy;
    CertifiedSta();
    Append(prefix, Sta, 82);
    prefix := prefix + Sta;
    CertifiedStxSty();
    Append(prefix, StxSty, 82);
    prefix := prefix + StxSty;
    CertifiedFlags();
    Append(prefix, Flags, 82);
    prefix := prefix + Flags;
    CertifiedTransfers();
    Append(prefix, Transfers, 82);
    prefix := prefix + Transfers;
    CertifiedStack();
    Append(prefix, Stack, 82);
    prefix := prefix + Stack;
    assert prefix == SecondHalf;
  }

  /** The whole table is certified, group by group. */
  lemma CertifiedTable()
    ensures Certified(Table, 0)
  {
    CertifiedFirstHalf();
    CertifiedSecondHalf();
    Append(FirstHalf, SecondHalf, 0);
  }

  /** No two rows share an opcode byte. */
  lemma CodesDistinct()
    ensures forall i, j | 0 <= i < j < |Table| :: Table[i].code != Table[j].code
  {
    CertifiedTable();
  }

  /** Every row has the length its addressing mode calls for (so 1, 2 or 3 bytes) and takes
      from 2 to 7 cycles. */
  lemma RowShapes()
    ensures |Table| == 151
    ensures forall i | 0 <= i < |Table| :: Table[i].len == ExpectedLen(Table[i]) && 1 <= Table[i].len <= 3
    ensures forall i | 0 <= i < |Table| :: 2 <= Table[i].cycles <= 7
  {
    CertifiedTable();
  }

  /** Row `i` is the last row of `ops[..n]` with its code. */
  predicate LastWithin(ops: seq<OpCode>, i: nat, n: nat)
    requires i < n <= |ops|
  {
    forall j | i < j < n :: ops[j].code != ops[i].code
  }

  /** The loop that builds `OPCODES_MAP`: the rows of `ops` inserted by code, in order, so that
      a later row with the same code replaces an earlier one. */
  method BuildOpcodesMap(ops: seq<OpCode>) returns (m: map<Byte, OpCode>)
    ensures m.Keys == set i | 0 <= i < |ops| :: ops[i].code
    ensures forall i | 0 <= i < |ops| && LastWithin(ops, i, |ops|) :: m[ops[i].code] == ops[i]
  {
    m := map[];
    for n := 0 to |ops|
      invariant forall i | 0 <= i < n :: ops[i].code in m
      invariant forall c | c in m :: exists i | 0 <= i < n :: ops[i].code == c
      invariant forall i | 0 <= i < n && LastWithin(ops, i, n) :: m[ops[i].code] == ops[i]
    {
      var cpuop := ops[n];
      m := m[cpuop.code := cpuop];
      forall i | 0 <= i < n + 1 && LastWithin(ops, i, n + 1)
        ensures m[ops[i].code] == ops[i]
      {
        if i < n {
          assert ops[n].code != ops[i].code;
          assert LastWithin(ops, i, n);
        }
      }
    }
    assert m.Keys == set i | 0 <= i < |ops| :: ops[i].code;
  }

  /** `OPCODES_MAP` over `CPU_OPS_CODES`: every code of the table is a key, nothing else is, and
      the entry of a code is the row with that code. */
  method OpcodesMap() returns (m: map<Byte, OpCode>)
    ensures m.Keys == set i | 0 <= i < |Table| :: Table[i].code
    ensures forall i | 0 <= i < |Table| :: m[Table[i].code] == Table[i]
    ensures forall c | c in m :: m[c].code == c && RowOk(m[c])
  {
    m := BuildOpcodesMap(Table);
    CodesDistinct();
    RowShapes();
    assert forall i | 0 <= i < |Table| :: LastWithin(Table, i, |Table|);
  }
}
