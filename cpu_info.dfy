/** The 6502 decode tables: `opdata`, one packed word per opcode byte
    (instruction, addressing mode, size in bytes, base cycles), the parallel
    `cycTable` of base cycle counts, the instruction mnemonics and the
    addressing-mode descriptions. */
module CpuInfo {
  import opened BitOps

  // Instruction types.
  const INS_ADC: int32 := 0
  const INS_AND: int32 := 1
  const INS_ASL: int32 := 2
  const INS_BCC: int32 := 3
  const INS_BCS: int32 := 4
  const INS_BEQ: int32 := 5
  const INS_BIT: int32 := 6
  const INS_BMI: int32 := 7
  const INS_BNE: int32 := 8
  const INS_BPL: int32 := 9
  const INS_BRK: int32 := 10
  const INS_BVC: int32 := 11
  const INS_BVS: int32 := 12
  const INS_CLC: int32 := 13
  const INS_CLD: int32 := 14
  const INS_CLI: int32 := 15
  const INS_CLV: int32 := 16
  const INS_CMP: int32 := 17
  const INS_CPX: int32 := 18
  const INS_CPY: int32 := 19
  const INS_DEC: int32 := 20
  const INS_DEX: int32 := 21
  const INS_DEY: int32 := 22
  const INS_EOR: int32 := 23
  const INS_INC: int32 := 24
  const INS_INX: int32 := 25
  const INS_INY: int32 := 26
  const INS_JMP: int32 := 27
  const INS_JSR: int32 := 28
  const INS_LDA: int32 := 29
  const INS_LDX: int32 := 30
  const INS_LDY: int32 := 31
  const INS_LSR: int32 := 32
  const INS_NOP: int32 := 33
  const INS_ORA: int32 := 34
  const INS_PHA: int32 := 35
  const INS_PHP: int32 := 36
  const INS_PLA: int32 := 37
  const INS_PLP: int32 := 38
  const INS_ROL: int32 := 39
  const INS_ROR: int32 := 40
  const INS_RTI: int32 := 41
  const INS_RTS: int32 := 42
  const INS_SBC: int32 := 43
  const INS_SEC: int32 := 44
  const INS_SED: int32 := 45
  const INS_SEI: int32 := 46
  const INS_STA: int32 := 47
  const INS_STX: int32 := 48
  const INS_STY: int32 := 49
  const INS_TAX: int32 := 50
  const INS_TAY: int32 := 51
  const INS_TSX: int32 := 52
  const INS_TXA: int32 := 53
  const INS_TXS: int32 := 54
  const INS_TYA: int32 := 55
  const INS_DUMMY: int32 := 56

  // Addressing modes.
  const ADDR_ZP: int32 := 0
  const ADDR_REL: int32 := 1
  const ADDR_IMP: int32 := 2
  const ADDR_ABS: int32 := 3
  const ADDR_ACC: int32 := 4
  const ADDR_IMM: int32 := 5
  const ADDR_ZPX: int32 := 6
  const ADDR_ZPY: int32 := 7
  const ADDR_ABSX: int32 := 8
  const ADDR_ABSY: int32 := 9
  const ADDR_PREIDXIND: int32 := 10
  const ADDR_POSTIDXIND: int32 := 11
  const ADDR_INDABS: int32 := 12

  /** The word every opcode byte holds until `setOp` registers it. */
  const INVALID_OP: int32 := 0xFF

  datatype OpInfo = OpInfo(inst: int32, addr: int32, size: int32, cycles: int32)

  /** The `setOp` registrations of `initOpData`, laid out by opcode byte:
      row `op / 16`, column `op % 16`. No opcode byte is registered twice, so
      the order of the calls does not matter; every other byte is
      undocumented. */
  function Registered(op: int): Option<OpInfo> {
    if 0 <= op < 256 then RegisteredAt(op / 16, op % 16) else None
  }

  function RegisteredAt(row: int, col: int): Option<OpInfo> {
    match row
    case 0 => Row0(col)
    case 1 => Row1(col)
    case 2 => Row2(col)
    case 3 => Row3(col)
    case 4 => Row4(col)
    case 5 => Row5(col)
    case 6 => Row6(col)
    case 7 => Row7(col)
    case 8 => Row8(col)
    case 9 => Row9(col)
    case 10 => RowA(col)
    case 11 => RowB(col)
    case 12 => RowC(col)
    case 13 => RowD(col)
    case 14 => RowE(col)
    case 15 => RowF(col)
    case _ => None
  }

  /** Opcodes 0x00 to 0x0F. */
  function Row0(col: int): Option<OpInfo> {
    match col
    case 0x0 => Some(OpInfo(INS_BRK, ADDR_IMP, 1, 7))  // 0x00
    case 0x1 => Some(OpInfo(INS_ORA, ADDR_PREIDXIND, 2, 6))  // 0x01
    case 0x5 => Some(OpInfo(INS_ORA, ADDR_ZP, 2, 3))  // 0x05
    case 0x6 => Some(OpInfo(INS_ASL, ADDR_ZP, 2, 5))  // 0x06
    case 0x8 => Some(OpInfo(INS_PHP, ADDR_IMP, 1, 3))  // 0x08
    case 0x9 => Some(OpInfo(INS_ORA, ADDR_IMM, 2, 2))  // 0x09
    case 0xA => Some(OpInfo(INS_ASL, ADDR_ACC, 1, 2))  // 0x0A
    case 0xD => Some(OpInfo(INS_ORA, ADDR_ABS, 3, 4))  // 0x0D
    case 0xE => Some(OpInfo(INS_ASL, ADDR_ABS, 3, 6))  // 0x0E
    case _ => None
  }

  /** Opcodes 0x10 to 0x1F. */
  function Row1(col: int): Option<OpInfo> {
    match col
    case 0x0 => Some(OpInfo(INS_BPL, ADDR_REL, 2, 2))  // 0x10
    case 0x1 => Some(OpInfo(INS_ORA, ADDR_POSTIDXIND, 2, 5))  // 0x11
    case 0x5 => Some(OpInfo(INS_ORA, ADDR_ZPX, 2, 4))  // 0x15
    case 0x6 => Some(OpInfo(INS_ASL, ADDR_ZPX, 2, 6))  // 0x16
    case 0x8 => Some(OpInfo(INS_CLC, ADDR_IMP, 1, 2))  // 0x18
    case 0x9 => Some(OpInfo(INS_ORA, ADDR_ABSY, 3, 4))  // 0x19
    case 0xD => Some(OpInfo(INS_ORA, ADDR_ABSX, 3, 4))  // 0x1D
    case 0xE => Some(OpInfo(INS_ASL, ADDR_ABSX, 3, 7))  // 0x1E
    case _ => None
  }

  /** Opcodes 0x20 to 0x2F. */
  function Row2(col: int): Option<OpInfo> {
    match col
    case 0x0 => Some(OpInfo(INS_JSR, ADDR_ABS, 3, 6))  // 0x20
    case 0x1 => Some(OpInfo(INS_AND, ADDR_PREIDXIND, 2, 6))  // 0x21
    case 0x4 => Some(OpInfo(INS_BIT, ADDR_ZP, 2, 3))  // 0x24
    case 0x5 => Some(OpInfo(INS_AND, ADDR_ZP, 2, 3))  // 0x25
    case 0x6 => Some(OpInfo(INS_ROL, ADDR_ZP, 2, 5))  // 0x26
    case 0x8 => Some(OpInfo(INS_PLP, ADDR_IMP, 1, 4))  // 0x28
    case 0x9 => Some(OpInfo(INS_AND, ADDR_IMM, 2, 2))  // 0x29
    case 0xA => Some(OpInfo(INS_ROL, ADDR_ACC, 1, 2))  // 0x2A
    case 0xC => Some(OpInfo(INS_BIT, ADDR_ABS, 3, 4))  // 0x2C
    case 0xD => Some(OpInfo(INS_AND, ADDR_ABS, 3, 4))  // 0x2D
    case 0xE => Some(OpInfo(INS_ROL, ADDR_ABS, 3, 6))  // 0x2E
    case _ => None
  }

  /** Opcodes 0x30 to 0x3F. */
  function Row3(col: int): Option<OpInfo> {
    match col
    case 0x0 => Some(OpInfo(INS_BMI, ADDR_REL, 2, 2))  // 0x30
    case 0x1 => Some(OpInfo(INS_AND, ADDR_POSTIDXIND, 2, 5))  // 0x31
    case 0x5 => Some(OpInfo(INS_AND, ADDR_ZPX, 2, 4))  // 0x35
    case 0x6 => Some(OpInfo(INS_ROL, ADDR_ZPX, 2, 6))  // 0x36
    case 0x8 => Some(OpInfo(INS_SEC, ADDR_IMP, 1, 2))  // 0x38
    case 0x9 => Some(OpInfo(INS_AND, ADDR_ABSY, 3, 4))  // 0x39
    case 0xD => Some(OpInfo(INS_AND, ADDR_ABSX, 3, 4))  // 0x3D
    case 0xE => Some(OpInfo(INS_ROL, ADDR_ABSX, 3, 7))  // 0x3E
    case _ => None
  }

  /** Opcodes 0x40 to 0x4F. */
  function Row4(col: int): Option<OpInfo> {
    match col
    case 0x0 => Some(OpInfo(INS_RTI, ADDR_IMP, 1, 6))  // 0x40
    case 0x1 => Some(OpInfo(INS_EOR, ADDR_PREIDXIND, 2, 6))  // 0x41
    case 0x5 => Some(OpInfo(INS_EOR, ADDR_ZP, 2, 3))  // 0x45
    case 0x6 => Some(OpInfo(INS_LSR, ADDR_ZP, 2, 5))  // 0x46
    case 0x8 => Some(OpInfo(INS_PHA, ADDR_IMP, 1, 3))  // 0x48
    case 0x9 => Some(OpInfo(INS_EOR, ADDR_IMM, 2, 2))  // 0x49
    case 0xA => Some(OpInfo(INS_LSR, ADDR_ACC, 1, 2))  // 0x4A
    case 0xC => Some(OpInfo(INS_JMP, ADDR_ABS, 3, 3))  // 0x4C
    case 0xD => Some(OpInfo(INS_EOR, ADDR_ABS, 3, 4))  // 0x4D
    case 0xE => Some(OpInfo(INS_LSR, ADDR_ABS, 3, 6))  // 0x4E
    case _ => None
  }

  /** Opcodes 0x50 to 0x5F. */
  function Row5(col: int): Option<OpInfo> {
    match col
    case 0x0 => Some(OpInfo(INS_BVC, ADDR_REL, 2, 2))  // 0x50
    case 0x1 => Some(OpInfo(INS_EOR, ADDR_POSTIDXIND, 2, 5))  // 0x51
    case 0x5 => Some(OpInfo(INS_EOR, ADDR_ZPX, 2, 4))  // 0x55
    case 0x6 => Some(OpInfo(INS_LSR, ADDR_ZPX, 2, 6))  // 0x56
    case 0x8 => Some(OpInfo(INS_CLI, ADDR_IMP, 1, 2))  // 0x58
    case 0x9 => Some(OpInfo(INS_EOR, ADDR_ABSY, 3, 4))  // 0x59
    case 0xD => Some(OpInfo(INS_EOR, ADDR_ABSX, 3, 4))  // 0x5D
    case 0xE => Some(OpInfo(INS_LSR, ADDR_ABSX, 3, 7))  // 0x5E
    case _ => None
  }

  /** Opcodes 0x60 to 0x6F. */
  function Row6(col: int): Option<OpInfo> {
    match col
    case 0x0 => Some(OpInfo(INS_RTS, ADDR_IMP, 1, 6))  // 0x60
    case 0x1 => Some(OpInfo(INS_ADC, ADDR_PREIDXIND, 2, 6))  // 0x61
    case 0x5 => Some(OpInfo(INS_ADC, ADDR_ZP, 2, 3))  // 0x65
    case 0x6 => Some(OpInfo(INS_ROR, ADDR_ZP, 2, 5))  // 0x66
    case 0x8 => Some(OpInfo(INS_PLA, ADDR_IMP, 1, 4))  // 0x68
    case 0x9 => Some(OpInfo(INS_ADC, ADDR_IMM, 2, 2))  // 0x69
    case 0xA => Some(OpInfo(INS_ROR, ADDR_ACC, 1, 2))  // 0x6A
    case 0xC => Some(OpInfo(INS_JMP, ADDR_INDABS, 3, 5))  // 0x6C
    case 0xD => Some(OpInfo(INS_ADC, ADDR_ABS, 3, 4))  // 0x6D
    case 0xE => Some(OpInfo(INS_ROR, ADDR_ABS, 3, 6))  // 0x6E
    case _ => None
  }

  /** Opcodes 0x70 to 0x7F. */
  function Row7(col: int): Option<OpInfo> {
    match col
    case 0x0 => Some(OpInfo(INS_BVS, ADDR_REL, 2, 2))  // 0x70
    case 0x1 => Some(OpInfo(INS_ADC, ADDR_POSTIDXIND, 2, 5))  // 0x71
    case 0x5 => Some(OpInfo(INS_ADC, ADDR_ZPX, 2, 4))  // 0x75
    case 0x6 => Some(OpInfo(INS_ROR, ADDR_ZPX, 2, 6))  // 0x76
    case 0x8 => Some(OpInfo(INS_SEI, ADDR_IMP, 1, 2))  // 0x78
    case 0x9 => Some(OpInfo(INS_ADC, ADDR_ABSY, 3, 4))  // 0x79
    case 0xD => Some(OpInfo(INS_ADC, ADDR_ABSX, 3, 4))  // 0x7D
    case 0xE => Some(OpInfo(INS_ROR, ADDR_ABSX, 3, 7))  // 0x7E
    case _ => None
  }

  /** Opcodes 0x80 to 0x8F. */
  function Row8(col: int): Option<OpInfo> {
    match col
    case 0x1 => Some(OpInfo(INS_STA, ADDR_PREIDXIND, 2, 6))  // 0x81
    case 0x4 => Some(OpInfo(INS_STY, ADDR_ZP, 2, 3))  // 0x84
    case 0x5 => Some(OpInfo(INS_STA, ADDR_ZP, 2, 3))  // 0x85
    case 0x6 => Some(OpInfo(INS_STX, ADDR_ZP, 2, 3))  // 0x86
    case 0x8 => Some(OpInfo(INS_DEY, ADDR_IMP, 1, 2))  // 0x88
    case 0xA => Some(OpInfo(INS_TXA, ADDR_IMP, 1, 2))  // 0x8A
    case 0xC => Some(OpInfo(INS_STY, ADDR_ABS, 3, 4))  // 0x8C
    case 0xD => Some(OpInfo(INS_STA, ADDR_ABS, 3, 4))  // 0x8D
    case 0xE => Some(OpInfo(INS_STX, ADDR_ABS, 3, 4))  // 0x8E
    case _ => None
  }

  /** Opcodes 0x90 to 0x9F. */
  function Row9(col: int): Option<OpInfo> {
    match col
    case 0x0 => Some(OpInfo(INS_BCC, ADDR_REL, 2, 2))  // 0x90
    case 0x1 => Some(OpInfo(INS_STA, ADDR_POSTIDXIND, 2, 6))  // 0x91
    case 0x4 => Some(OpInfo(INS_STY, ADDR_ZPX, 2, 4))  // 0x94
    case 0x5 => Some(OpInfo(INS_STA, ADDR_ZPX, 2, 4))  // 0x95
    case 0x6 => Some(OpInfo(INS_STX, ADDR_ZPY, 2, 4))  // 0x96
    case 0x8 => Some(OpInfo(INS_TYA, ADDR_IMP, 1, 2))  // 0x98
    case 0x9 => Some(OpInfo(INS_STA, ADDR_ABSY, 3, 5))  // 0x99
    case 0xA => Some(OpInfo(INS_TXS, ADDR_IMP, 1, 2))  // 0x9A
    case 0xD => Some(OpInfo(INS_STA, ADDR_ABSX, 3, 5))  // 0x9D
    case _ => None
  }

  /** Opcodes 0xA0 to 0xAF. */
  function RowA(col: int): Option<OpInfo> {
    match col
    case 0x0 => Some(OpInfo(INS_LDY, ADDR_IMM, 2, 2))  // 0xA0
    case 0x1 => Some(OpInfo(INS_LDA, ADDR_PREIDXIND, 2, 6))  // 0xA1
    case 0x2 => Some(OpInfo(INS_LDX, ADDR_IMM, 2, 2))  // 0xA2
    case 0x4 => Some(OpInfo(INS_LDY, ADDR_ZP, 2, 3))  // 0xA4
    case 0x5 => Some(OpInfo(INS_LDA, ADDR_ZP, 2, 3))  // 0xA5
    case 0x6 => Some(OpInfo(INS_LDX, ADDR_ZP, 2, 3))  // 0xA6
    case 0x8 => Some(OpInfo(INS_TAY, ADDR_IMP, 1, 2))  // 0xA8
    case 0x9 => Some(OpInfo(INS_LDA, ADDR_IMM, 2, 2))  // 0xA9
    case 0xA => Some(OpInfo(INS_TAX, ADDR_IMP, 1, 2))  // 0xAA
    case 0xC => Some(OpInfo(INS_LDY, ADDR_ABS, 3, 4))  // 0xAC
    case 0xD => Some(OpInfo(INS_LDA, ADDR_ABS, 3, 4))  // 0xAD
    case 0xE => Some(OpInfo(INS_LDX, ADDR_ABS, 3, 4))  // 0xAE
    case _ => None
  }

  /** Opcodes 0xB0 to 0xBF. */
  function RowB(col: int): Option<OpInfo> {
    match col
    case 0x0 => Some(OpInfo(INS_BCS, ADDR_REL, 2, 2))  // 0xB0
    case 0x1 => Some(OpInfo(INS_LDA, ADDR_POSTIDXIND, 2, 5))  // 0xB1
    case 0x4 => Some(OpInfo(INS_LDY, ADDR_ZPX, 2, 4))  // 0xB4
    case 0x5 => Some(OpInfo(INS_LDA, ADDR_ZPX, 2, 4))  // 0xB5
    case 0x6 => Some(OpInfo(INS_LDX, ADDR_ZPY, 2, 4))  // 0xB6
    case 0x8 => Some(OpInfo(INS_CLV, ADDR_IMP, 1, 2))  // 0xB8
    case 0x9 => Some(OpInfo(INS_LDA, ADDR_ABSY, 3, 4))  // 0xB9
    case 0xA => Some(OpInfo(INS_TSX, ADDR_IMP, 1, 2))  // 0xBA
    case 0xC => Some(OpInfo(INS_LDY, ADDR_ABSX, 3, 4))  // 0xBC
    case 0xD => Some(OpInfo(INS_LDA, ADDR_ABSX, 3, 4))  // 0xBD
    case 0xE => Some(OpInfo(INS_LDX, ADDR_ABSY, 3, 4))  // 0xBE
    case _ => None
  }

  /** Opcodes 0xC0 to 0xCF. */
  function RowC(col: int): Option<OpInfo> {
    match col
    case 0x0 => Some(OpInfo(INS_CPY, ADDR_IMM, 2, 2))  // 0xC0
    case 0x1 => Some(OpInfo(INS_CMP, ADDR_PREIDXIND, 2, 6))  // 0xC1
    case 0x4 => Some(OpInfo(INS_CPY, ADDR_ZP, 2, 3))  // 0xC4
    case 0x5 => Some(OpInfo(INS_CMP, ADDR_ZP, 2, 3))  // 0xC5
    case 0x6 => Some(OpInfo(INS_DEC, ADDR_ZP, 2, 5))  // 0xC6
    case 0x8 => Some(OpInfo(INS_INY, ADDR_IMP, 1, 2))  // 0xC8
    case 0x9 => Some(OpInfo(INS_CMP, ADDR_IMM, 2, 2))  // 0xC9
    case 0xA => Some(OpInfo(INS_DEX, ADDR_IMP, 1, 2))  // 0xCA
    case 0xC => Some(OpInfo(INS_CPY, ADDR_ABS, 3, 4))  // 0xCC
    case 0xD => Some(OpInfo(INS_CMP, ADDR_ABS, 3, 4))  // 0xCD
    case 0xE => Some(OpInfo(INS_DEC, ADDR_ABS, 3, 6))  // 0xCE
    case _ => None
  }

  /** Opcodes 0xD0 to 0xDF. */
  function RowD(col: int): Option<OpInfo> {
    match col
    case 0x0 => Some(OpInfo(INS_BNE, ADDR_REL, 2, 2))  // 0xD0
    case 0x1 => Some(OpInfo(INS_CMP, ADDR_POSTIDXIND, 2, 5))  // 0xD1
    case 0x5 => Some(OpInfo(INS_CMP, ADDR_ZPX, 2, 4))  // 0xD5
    case 0x6 => Some(OpInfo(INS_DEC, ADDR_ZPX, 2, 6))  // 0xD6
    case 0x8 => Some(OpInfo(INS_CLD, ADDR_IMP, 1, 2))  // 0xD8
    case 0x9 => Some(OpInfo(INS_CMP, ADDR_ABSY, 3, 4))  // 0xD9
    case 0xD => Some(OpInfo(INS_CMP, ADDR_ABSX, 3, 4))  // 0xDD
    case 0xE => Some(OpInfo(INS_DEC, ADDR_ABSX, 3, 7))  // 0xDE
    case _ => None
  }

  /** Opcodes 0xE0 to 0xEF. */
  function RowE(col: int): Option<OpInfo> {
    match col
    case 0x0 => Some(OpInfo(INS_CPX, ADDR_IMM, 2, 2))  // 0xE0
    case 0x1 => Some(OpInfo(INS_SBC, ADDR_PREIDXIND, 2, 6))  // 0xE1
    case 0x4 => Some(OpInfo(INS_CPX, ADDR_ZP, 2, 3))  // 0xE4
    case 0x5 => Some(OpInfo(INS_SBC, ADDR_ZP, 2, 3))  // 0xE5
    case 0x6 => Some(OpInfo(INS_INC, ADDR_ZP, 2, 5))  // 0xE6
    case 0x8 => Some(OpInfo(INS_INX, ADDR_IMP, 1, 2))  // 0xE8
    case 0x9 => Some(OpInfo(INS_SBC, ADDR_IMM, 2, 2))  // 0xE9
    case 0xA => Some(OpInfo(INS_NOP, ADDR_IMP, 1, 2))  // 0xEA
    case 0xC => Some(OpInfo(INS_CPX, ADDR_ABS, 3, 4))  // 0xEC
    case 0xD => Some(OpInfo(INS_SBC, ADDR_ABS, 3, 4))  // 0xED
    case 0xE => Some(OpInfo(INS_INC, ADDR_ABS, 3, 6))  // 0xEE
    case _ => None
  }

  /** Opcodes 0xF0 to 0xFF. */
  function RowF(col: int): Option<OpInfo> {
    match col
    case 0x0 => Some(OpInfo(INS_BEQ, ADDR_REL, 2, 2))  // 0xF0
    case 0x1 => Some(OpInfo(INS_SBC, ADDR_POSTIDXIND, 2, 5))  // 0xF1
    case 0x5 => Some(OpInfo(INS_SBC, ADDR_ZPX, 2, 4))  // 0xF5
    case 0x6 => Some(OpInfo(INS_INC, ADDR_ZPX, 2, 6))  // 0xF6
    case 0x8 => Some(OpInfo(INS_SED, ADDR_IMP, 1, 2))  // 0xF8
    case 0x9 => Some(OpInfo(INS_SBC, ADDR_ABSY, 3, 4))  // 0xF9
    case 0xD => Some(OpInfo(INS_SBC, ADDR_ABSX, 3, 4))  // 0xFD
    case 0xE => Some(OpInfo(INS_INC, ADDR_ABSX, 3, 7))  // 0xFE
    case _ => None
  }

  datatype Option<T> = None | Some(value: T)

  /** `(w shr 8k) and 0xFF`: byte k of a packed word. */
  function Field(w: int, k: nat): (b: int)
    ensures 0 <= b < 256
    decreases k
  {
    if k == 0 then w % 256 else Field(w / 256, k - 1)
  }

  /** The packing expression of `setOp`: each argument masked to a byte and
      shifted into its own byte of a 32-bit `Int` (which is negative when the
      cycle byte is 128 or more). Every byte reads back as the masked argument. */
  function Pack(inst: int32, addr: int32, size: int32, cycles: int32): (w: int32)
    ensures Field(w, 0) == inst % 256
    ensures Field(w, 1) == addr % 256
    ensures Field(w, 2) == size % 256
    ensures Field(w, 3) == cycles % 256
  {
    var a, b, c, d := inst % 256, addr % 256, size % 256, cycles % 256;
    var u := a + 0x100 * (b + 0x100 * (c + 0x100 * d));
    ByteFields(a, b, c, if u < 0x8000_0000 then d else d - 0x100);
    if u < 0x8000_0000 then u else u - 0x1_0000_0000
  }

  /** Bytes stacked base-256 read back one by one; the top byte modulo 256. */
  lemma ByteFields(a: int, b: int, c: int, d: int)
    requires 0 <= a < 256 && 0 <= b < 256 && 0 <= c < 256
    ensures var w := a + 0x100 * (b + 0x100 * (c + 0x100 * d));
      Field(w, 0) == a && Field(w, 1) == b && Field(w, 2) == c && Field(w, 3) == d % 256
  {
    var w := a + 0x100 * (b + 0x100 * (c + 0x100 * d));
    assert w % 256 == a && w / 256 == b + 0x100 * (c + 0x100 * d);
    var w1 := w / 256;
    assert w1 % 256 == b && w1 / 256 == c + 0x100 * d;
    var w2 := w1 / 256;
    assert w2 % 256 == c && w2 / 256 == d;
    assert Field(w, 1) == Field(w1, 0);
    assert Field(w, 2) == Field(w1, 1) == Field(w2, 0);
    assert Field(w, 3) == Field(w1, 2) == Field(w2, 1) == Field(d, 0);
  }

  /** What `opdata[op]` holds once `initOpData` has run. */
  function OpWord(op: int): int32 {
    EntryWord(Registered(op))
  }

  /** The word for a registration, or the invalid marker for none. */
  function EntryWord(r: Option<OpInfo>): int32 {
    match r
    case None => INVALID_OP
    case Some(o) => Pack(o.inst, o.addr, o.size, o.cycles)
  }

  /** The instruction size each addressing mode implies: the opcode byte alone,
      one operand byte, or a two-byte address. */
  function ModeSize(addr: int): int {
    if addr == ADDR_IMP || addr == ADDR_ACC then 1
    else if addr == ADDR_ABS || addr == ADDR_ABSX || addr == ADDR_ABSY || addr == ADDR_INDABS then 3
    else 2
  }

  /** Row `r` of `cycTable`: the base cycle counts of opcodes 16r..16r+15. */
  function CycRow(r: int): (row: seq<int32>)
    ensures |row| == 16
  {
    match r
    case 0 => [7, 6, 2, 8, 3, 3, 5, 5, 3, 2, 2, 2, 4, 4, 6, 6]  // 0x00
    case 1 => [2, 5, 2, 8, 4, 4, 6, 6, 2, 4, 2, 7, 4, 4, 7, 7]  // 0x10
    case 2 => [6, 6, 2, 8, 3, 3, 5, 5, 4, 2, 2, 2, 4, 4, 6, 6]  // 0x20
    case 3 => [2, 5, 2, 8, 4, 4, 6, 6, 2, 4, 2, 7, 4, 4, 7, 7]  // 0x30
    case 4 => [6, 6, 2, 8, 3, 3, 5, 5, 3, 2, 2, 2, 3, 4, 6, 6]  // 0x40
    case 5 => [2, 5, 2, 8, 4, 4, 6, 6, 2, 4, 2, 7, 4, 4, 7, 7]  // 0x50
    case 6 => [6, 6, 2, 8, 3, 3, 5, 5, 4, 2, 2, 2, 5, 4, 6, 6]  // 0x60
    case 7 => [2, 5, 2, 8, 4, 4, 6, 6, 2, 4, 2, 7, 4, 4, 7, 7]  // 0x70
    case 8 => [2, 6, 2, 6, 3, 3, 3, 3, 2, 2, 2, 2, 4, 4, 4, 4]  // 0x80
    case 9 => [2, 6, 2, 6, 4, 4, 4, 4, 2, 5, 2, 5, 5, 5, 5, 5]  // 0x90
    case 10 => [2, 6, 2, 6, 3, 3, 3, 3, 2, 2, 2, 2, 4, 4, 4, 4]  // 0xA0
    case 11 => [2, 5, 2, 5, 4, 4, 4, 4, 2, 4, 2, 4, 4, 4, 4, 4]  // 0xB0
    case 12 => [2, 6, 2, 8, 3, 3, 5, 5, 2, 2, 2, 2, 4, 4, 6, 6]  // 0xC0
    case 13 => [2, 5, 2, 8, 4, 4, 6, 6, 2, 4, 2, 7, 4, 4, 7, 7]  // 0xD0
    case 14 => [2, 6, 3, 8, 3, 3, 5, 5, 2, 2, 2, 2, 4, 4, 6, 6]  // 0xE0
    case _ => [2, 5, 2, 8, 4, 4, 6, 6, 2, 4, 2, 7, 4, 4, 7, 7]  // 0xF0
  }

  /** `cycTable[op]`, read as row op / 16, column op % 16. */
  function CycTable(op: int): int32
    requires 0 <= op < 256
  {
    CycRow(op / 16)[op % 16]
  }

  /** `addrDesc`, indexed by addressing mode. */
  const AddrDesc: seq<string> := [
    "Zero Page           ",
    "Relative            ",
    "Implied             ",
    "Absolute            ",
    "Accumulator         ",
    "Immediate           ",
    "Zero Page,X         ",
    "Zero Page,Y         ",
    "Absolute,X          ",
    "Absolute,Y          ",
    "Preindexed Indirect ",
    "Postindexed Indirect",
    "Indirect Absolute   "
  ]

  /** Every registration is for an opcode byte, names a real instruction and
      addressing mode, gives the size that addressing mode implies, and gives
      the base cycle count `cycTable` holds for that opcode. */
  lemma RegisteredWellFormed(op: int)
    requires Registered(op).Some?
    ensures 0 <= op < 256
    ensures var o := Registered(op).value;
      && INS_ADC <= o.inst <= INS_TYA
      && ADDR_ZP <= o.addr <= ADDR_INDABS
      && o.size == ModeSize(o.addr)
      && o.cycles == CycTable(op)
      && 2 <= o.cycles <= 7
  {
    var r, c := op / 16, op % 16;
    if r == 0 {
      Row0Ok();
    } else if r == 1 {
      Row1Ok();
    } else if r == 2 {
      Row2Ok();
    } else if r == 3 {
      Row3Ok();
    } else if r == 4 {
      Row4Ok();
    } else if r == 5 {
      Row5Ok();
    } else if r == 6 {
      Row6Ok();
    } else if r == 7 {
      Row7Ok();
    } else if r == 8 {
      Row8Ok();
    } else if r == 9 {
      Row9Ok();
    } else if r == 10 {
      RowAOk();
    } else if r == 11 {
      RowBOk();
    } else if r == 12 {
      RowCOk();
    } else if r == 13 {
      RowDOk();
    } else if r == 14 {
      RowEOk();
    } else if r == 15 {
      RowFOk();
    }
    assert CellOk(r, c);
  }

  /** The registration in row r, column c, checked against row r of
      `cycTable`. */
  predicate CellOk(r: int, c: int)
    requires 0 <= r < 16 && 0 <= c < 16
  {
    RegisteredAt(r, c).Some? ==>
      var o := RegisteredAt(r, c).value;
      && INS_ADC <= o.inst <= INS_TYA
      && ADDR_ZP <= o.addr <= ADDR_INDABS
      && o.size == ModeSize(o.addr)
      && o.cycles == CycRow(r)[c]
      && 2 <= o.cycles <= 7
  }

  lemma Row0Ok()
    ensures forall c :: 0 <= c < 16 ==> CellOk(0, c)
  {
  }

  lemma Row1Ok()
    ensures forall c :: 0 <= c < 16 ==> CellOk(1, c)
  {
  }

  lemma Row2Ok()
    ensures forall c :: 0 <= c < 16 ==> CellOk(2, c)
  {
  }

  lemma Row3Ok()
    ensures forall c :: 0 <= c < 16 ==> CellOk(3, c)
  {
  }

  lemma Row4Ok()
    ensures forall c :: 0 <= c < 16 ==> CellOk(4, c)
  {
  }

  lemma Row5Ok()
    ensures forall c :: 0 <= c < 16 ==> CellOk(5, c)
  {
  }

  lemma Row6Ok()
    ensures forall c :: 0 <= c < 16 ==> CellOk(6, c)
  {
  }

  lemma Row7Ok()
    ensures forall c :: 0 <= c < 16 ==> CellOk(7, c)
  {
  }

  lemma Row8Ok()
    ensures forall c :: 0 <= c < 16 ==> CellOk(8, c)
  {
  }

  lemma Row9Ok()
    ensures forall c :: 0 <= c < 16 ==> CellOk(9, c)
  {
  }

  lemma RowAOk()
    ensures forall c :: 0 <= c < 16 ==> CellOk(10, c)
  {
  }

  lemma RowBOk()
    ensures forall c :: 0 <= c < 16 ==> CellOk(11, c)
  {
  }

  lemma RowCOk()
    ensures forall c :: 0 <= c < 16 ==> CellOk(12, c)
  {
  }

  lemma RowDOk()
    ensures forall c :: 0 <= c < 16 ==> CellOk(13, c)
  {
  }

  lemma RowEOk()
    ensures forall c :: 0 <= c < 16 ==> CellOk(14, c)
  {
  }

  lemma RowFOk()
    ensures forall c :: 0 <= c < 16 ==> CellOk(15, c)
  {
  }

  /** Decoding an `opdata` word: a registered opcode gives back its four
      fields; any other opcode byte gives the invalid marker 0xFF as its
      instruction, which is no instruction type. */
  lemma OpWordDecodes(op: int)
    requires 0 <= op < 256
    ensures Registered(op).None? <==> Field(OpWord(op), 0) == INVALID_OP
    ensures Registered(op).Some? ==>
      var o := Registered(op).value;
      Field(OpWord(op), 0) == o.inst && Field(OpWord(op), 1) == o.addr &&
      Field(OpWord(op), 2) == o.size && Field(OpWord(op), 3) == o.cycles
  {
    var r := Registered(op);
    if r.Some? {
      RegisteredWellFormed(op);
    }
    EntryDecodes(r);
  }

  /** The word of a well-formed registration reads back field by field and is
      never the invalid marker, whose instruction field is 0xFF. */
  lemma EntryDecodes(r: Option<OpInfo>)
    requires r.Some? ==>
      && INS_ADC <= r.value.inst <= INS_TYA && ADDR_ZP <= r.value.addr <= ADDR_INDABS
      && 1 <= r.value.size <= 3 && 2 <= r.value.cycles <= 7
    ensures r.None? <==> Field(EntryWord(r), 0) == INVALID_OP
    ensures r.Some? ==>
      Field(EntryWord(r), 0) == r.value.inst && Field(EntryWord(r), 1) == r.value.addr &&
      Field(EntryWord(r), 2) == r.value.size && Field(EntryWord(r), 3) == r.value.cycles
  {
    match r
    case Some(o) =>
      PackDecodes(o);
    case None =>
      assert Field(INVALID_OP, 0) == INVALID_OP;
  }

  /** The packed word of a well-formed registration reads back field by field. */
  lemma PackDecodes(o: OpInfo)
    requires INS_ADC <= o.inst <= INS_TYA && ADDR_ZP <= o.addr <= ADDR_INDABS
    requires 1 <= o.size <= 3 && 2 <= o.cycles <= 7
    ensures var w := Pack(o.inst, o.addr, o.size, o.cycles);
      Field(w, 0) == o.inst && Field(w, 1) == o.addr && Field(w, 2) == o.size &&
      Field(w, 3) == o.cycles && w != INVALID_OP
  {
  }

  /** `getAddressModeName`: the description of a mode in ADDR_ZP..ADDR_INDABS,
      every one 20 characters wide; "???" for any other value. */
  function GetAddressModeName(addrMode: int32): (r: string)
    ensures 0 <= addrMode < |AddrDesc| ==> r == AddrDesc[addrMode] && |r| == 20
    ensures r == "???" <==> !(ADDR_ZP <= addrMode <= ADDR_INDABS)
  {
    if 0 <= addrMode < |AddrDesc| then AddrDesc[addrMode] else "???"
  }

  /** The mnemonic `initInstNames` stores for instruction type k. */
  function InstName(k: int): string {
    match k
    case 0 => "ADC"
    case 1 => "AND"
    case 2 => "ASL"
    case 3 => "BCC"
    case 4 => "BCS"
    case 5 => "BEQ"
    case 6 => "BIT"
    case 7 => "BMI"
    case 8 => "BNE"
    case 9 => "BPL"
    case 10 => "BRK"
    case 11 => "BVC"
    case 12 => "BVS"
    case 13 => "CLC"
    case 14 => "CLD"
    case 15 => "CLI"
    case 16 => "CLV"
    case 17 => "CMP"
    case 18 => "CPX"
    case 19 => "CPY"
    case 20 => "DEC"
    case 21 => "DEX"
    case 22 => "DEY"
    case 23 => "EOR"
    case 24 => "INC"
    case 25 => "INX"
    case 26 => "INY"
    case 27 => "JMP"
    case 28 => "JSR"
    case 29 => "LDA"
    case 30 => "LDX"
    case 31 => "LDY"
    case 32 => "LSR"
    case 33 => "NOP"
    case 34 => "ORA"
    case 35 => "PHA"
    case 36 => "PHP"
    case 37 => "PLA"
    case 38 => "PLP"
    case 39 => "ROL"
    case 40 => "ROR"
    case 41 => "RTI"
    case 42 => "RTS"
    case 43 => "SBC"
    case 44 => "SEC"
    case 45 => "SED"
    case 46 => "SEI"
    case 47 => "STA"
    case 48 => "STX"
    case 49 => "STY"
    case 50 => "TAX"
    case 51 => "TAY"
    case 52 => "TSX"
    case 53 => "TXA"
    case 54 => "TXS"
    case _ => "TYA"
  }

  /** The names `initInstNames` stores, instruction type k at index k. */
  function InstNames(): (names: seq<string>)
    ensures |names| == 56 && forall k :: 0 <= k < 56 ==> names[k] == InstName(k)
  {
    seq(56, k => InstName(k))
  }

  /** The run of `instname[k] = ...` stores of `initInstNames`, from store k
      on: each writes `names[k]` at index k, and a store past the end of the
      table throws (None). */
  function StoreNames(table: seq<string>, names: seq<string>, k: nat): Option<seq<string>>
    requires k <= |names|
    decreases |names| - k
  {
    if k == |names| then Some(table)
    else if k < |table| then StoreNames(table[k := names[k]], names, k + 1)
    else None
  }

  /** `initInstNames` as written: the table is created by `arrayOf()`, with
      no elements, before the stores. */
  function InitInstNamesAsWritten(): Option<seq<string>> {
    StoreNames([], InstNames(), 0)
  }

  /** As written, the very first store is out of bounds, so `initInstNames`,
      and with it `instNames` and `getInstName`, always throw. */
  lemma InitInstNamesThrows()
    ensures InitInstNamesAsWritten() == None
  {
  }

  /** `initInstNames` as intended: a table with one slot per instruction type. */
  function InitInstNames(): Option<seq<string>> {
    StoreNames(seq(|InstNames()|, _ => ""), InstNames(), 0)
  }

  /** Stores k onward into a table at least as long as the names, whose first
      k slots already hold their names, leave exactly the names in front. */
  lemma {:induction false} StoreNamesFills(table: seq<string>, names: seq<string>, k: nat)
    requires k <= |names| <= |table|
    requires table[..k] == names[..k]
    ensures StoreNames(table, names, k) == Some(names + table[|names|..])
    decreases |names| - k
  {
    if k == |names| {
      assert table == names + table[|names|..];
    } else {
      var t := table[k := names[k]];
      assert t[..k + 1] == names[..k + 1];
      StoreNamesFills(t, names, k + 1);
      assert t[|names|..] == table[|names|..];
    }
  }

  /** With room for every name, `initInstNames` succeeds and the table is
      exactly the 56 mnemonics, one per instruction type. */
  lemma InitInstNamesStoresAll()
    ensures InitInstNames() == Some(InstNames())
    ensures |InstNames()| == INS_TYA + 1
  {
    var empty := seq(|InstNames()|, _ => "");
    StoreNamesFills(empty, InstNames(), 0);
    assert InstNames() + empty[|InstNames()|..] == InstNames();
  }

  /** Three upper-case letters. */
  predicate IsMnemonic(s: string) {
    |s| == 3 && forall i :: 0 <= i < 3 ==> 'A' <= s[i] <= 'Z'
  }

  /** Every stored name is a mnemonic. */
  lemma InstNamesAreMnemonics()
    ensures forall k :: 0 <= k < |InstNames()| ==> IsMnemonic(InstNames()[k])
  {
    forall k | 0 <= k < |InstNames()|
      ensures IsMnemonic(InstNames()[k])
    {
      assert InstNames()[k] == InstName(k);
    }
  }

  /** `getInstName` over the intended table: the mnemonic of an instruction
      type, and "???" from index 56 on. A negative index throws in the
      source. */
  function GetInstName(inst: int32): (r: string)
    requires inst < |InstNames()| ==> 0 <= inst
    ensures INS_ADC <= inst <= INS_TYA ==> r == InstName(inst) && IsMnemonic(r)
    ensures inst > INS_TYA ==> r == "???"
  {
    InitInstNamesStoresAll();
    InstNamesAreMnemonics();
    if inst < |InstNames()| then InstNames()[inst] else "???"
  }

  /** The lazily filled tables of the `CpuInfo` object. */
  class OpTables {
    var opdata: array<int32>
    var cycTable: array<int32>

    /** Both tables start out unset, modelled as empty arrays. */
    constructor ()
      ensures opdata.Length == 0 && cycTable.Length == 0
    {
      opdata := new int32[0];
      cycTable := new int32[0];
    }

    /** `setOp`: packs the four fields into `opdata[op]` and touches no other entry. */
    method SetOp(inst: int32, op: int, addr: int32, size: int32, cycles: int32)
      requires 0 <= op < opdata.Length
      modifies opdata
      ensures opdata[..] == old(opdata[..])[op := Pack(inst, addr, size, cycles)]
    {
      opdata[op] := Pack(inst, addr, size, cycles);
    }

    /** `initOpData`: a fresh 256-entry `opdata` filled with 0xFF, then every
        registration applied; a fresh 256-entry `cycTable`. The registrations
        are applied by opcode byte rather than in source order, which gives the
        same table because no opcode byte is registered twice. */
    method InitOpData()
      modifies this
      ensures fresh(opdata) && fresh(cycTable)
      ensures opdata.Length == 256 && cycTable.Length == 256
      ensures forall op :: 0 <= op < 256 ==> opdata[op] == OpWord(op)
      ensures forall op :: 0 <= op < 256 ==> cycTable[op] == CycTable(op)
    {
      opdata := new int32[256];
      for i := 0 to 256
        invariant fresh(opdata) && opdata.Length == 256
        invariant forall j :: 0 <= j < i ==> opdata[j] == INVALID_OP
      {
        opdata[i] := INVALID_OP;
      }
      for op := 0 to 256
        invariant fresh(opdata) && opdata.Length == 256
        invariant forall j :: 0 <= j < op ==> opdata[j] == OpWord(j)
        invariant forall j :: op <= j < 256 ==> opdata[j] == INVALID_OP
      {
        match Registered(op)
        case Some(o) =>
          SetOp(o.inst, op, o.addr, o.size, o.cycles);
          assert opdata[op] == OpWord(op);
        case None =>
          assert opdata[op] == OpWord(op);
      }
      cycTable := new int32[256](i requires 0 <= i < 256 => CycTable(i));
    }

    /** The `opData` getter: re-runs `initOpData` and hands out the new table. */
    method OpData() returns (r: array<int32>)
      modifies this
      ensures fresh(r) && r == opdata && r.Length == 256
      ensures forall op :: 0 <= op < 256 ==> r[op] == OpWord(op)
    {
      InitOpData();
      r := opdata;
    }
  }
}
