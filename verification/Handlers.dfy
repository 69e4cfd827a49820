/** Dispatch tables: the CMOS base table and the opcodes NMOS overrides. */
module Handlers {
  import opened Types
  import opened MachineState
  import opened Instructions

  function CmosHandler(op: uint8): Handler {
    if op < 0x20 then CmosRow0(op)
    else if op < 0x40 then CmosRow1(op)
    else if op < 0x60 then CmosRow2(op)
    else if op < 0x80 then CmosRow3(op)
    else if op < 0xA0 then CmosRow4(op)
    else if op < 0xC0 then CmosRow5(op)
    else if op < 0xE0 then CmosRow6(op)
    else CmosRow7(op)
  }

  function CmosRow0(op: uint8): Handler {
    match op
    case 0x00 => BRK case 0x01 => Reg(ORA) case 0x02 => NOP case 0x03 => NOP
    case 0x04 => Mem(TSB) case 0x05 => Reg(ORA) case 0x06 => Shf(ASL) case 0x07 => Mem(RMB)
    case 0x08 => Psh(PHP) case 0x09 => Reg(ORA) case 0x0A => Shf(ASL) case 0x0B => NOP
    case 0x0C => Mem(TSB) case 0x0D => Reg(ORA) case 0x0E => Shf(ASL) case 0x0F => Bra(BBR)
    case 0x10 => Bra(BPL) case 0x11 => Reg(ORA) case 0x12 => Reg(ORA) case 0x13 => NOP
    case 0x14 => Mem(TRB) case 0x15 => Reg(ORA) case 0x16 => Shf(ASL) case 0x17 => Mem(RMB)
    case 0x18 => Reg(CLC) case 0x19 => Reg(ORA) case 0x1A => Reg(INCA) case 0x1B => NOP
    case 0x1C => Mem(TRB) case 0x1D => Reg(ORA) case 0x1E => Shf(ASL) case _ => Bra(BBR)
  }

  function CmosRow1(op: uint8): Handler {
    match op
    case 0x20 => JSR case 0x21 => Reg(AND) case 0x22 => NOP case 0x23 => NOP
    case 0x24 => Reg(BIT) case 0x25 => Reg(AND) case 0x26 => Shf(ROL) case 0x27 => Mem(RMB)
    case 0x28 => Pul(PLP) case 0x29 => Reg(AND) case 0x2A => Shf(ROL) case 0x2B => NOP
    case 0x2C => Reg(BIT) case 0x2D => Reg(AND) case 0x2E => Shf(ROL) case 0x2F => Bra(BBR)
    case 0x30 => Bra(BMI) case 0x31 => Reg(AND) case 0x32 => Reg(AND) case 0x33 => NOP
    case 0x34 => Reg(BIT) case 0x35 => Reg(AND) case 0x36 => Shf(ROL) case 0x37 => Mem(RMB)
    case 0x38 => Reg(SEC) case 0x39 => Reg(AND) case 0x3A => Reg(DECA) case 0x3B => NOP
    case 0x3C => Reg(BIT) case 0x3D => Reg(AND) case 0x3E => Shf(ROL) case _ => Bra(BBR)
  }

  function CmosRow2(op: uint8): Handler {
    match op
    case 0x40 => RTI case 0x41 => Reg(EOR) case 0x42 => NOP case 0x43 => NOP
    case 0x44 => NOPREAD case 0x45 => Reg(EOR) case 0x46 => Shf(LSR) case 0x47 => Mem(RMB)
    case 0x48 => Psh(PHA) case 0x49 => Reg(EOR) case 0x4A => Shf(LSR) case 0x4B => NOP
    case 0x4C => JMP case 0x4D => Reg(EOR) case 0x4E => Shf(LSR) case 0x4F => Bra(BBR)
    case 0x50 => Bra(BVC) case 0x51 => Reg(EOR) case 0x52 => Reg(EOR) case 0x53 => NOP
    case 0x54 => NOPREAD case 0x55 => Reg(EOR) case 0x56 => Shf(LSR) case 0x57 => Mem(RMB)
    case 0x58 => Reg(CLI) case 0x59 => Reg(EOR) case 0x5A => Psh(PHY) case 0x5B => NOP
    case 0x5C => NOPREAD case 0x5D => Reg(EOR) case 0x5E => Shf(LSR) case _ => Bra(BBR)
  }

  function CmosRow3(op: uint8): Handler {
    match op
    case 0x60 => RTS case 0x61 => Reg(ADC) case 0x62 => NOP case 0x63 => NOP
    case 0x64 => Mem(STZ) case 0x65 => Reg(ADC) case 0x66 => Shf(ROR) case 0x67 => Mem(RMB)
    case 0x68 => Pul(PLA) case 0x69 => Reg(ADC) case 0x6A => Shf(ROR) case 0x6B => NOP
    case 0x6C => JMP case 0x6D => Reg(ADC) case 0x6E => Shf(ROR) case 0x6F => Bra(BBR)
    case 0x70 => Bra(BVS) case 0x71 => Reg(ADC) case 0x72 => Reg(ADC) case 0x73 => NOP
    case 0x74 => Mem(STZ) case 0x75 => Reg(ADC) case 0x76 => Shf(ROR) case 0x77 => Mem(RMB)
    case 0x78 => Reg(SEI) case 0x79 => Reg(ADC) case 0x7A => Pul(PLY) case 0x7B => NOP
    case 0x7C => JMP case 0x7D => Reg(ADC) case 0x7E => Shf(ROR) case _ => Bra(BBR)
  }

  function CmosRow4(op: uint8): Handler {
    match op
    case 0x80 => Bra(BRA) case 0x81 => Mem(STA) case 0x82 => NOP case 0x83 => NOP
    case 0x84 => Mem(STY) case 0x85 => Mem(STA) case 0x86 => Mem(STX) case 0x87 => Mem(SMB)
    case 0x88 => Reg(DEY) case 0x89 => Reg(BIT) case 0x8A => Reg(TXA) case 0x8B => NOP
    case 0x8C => Mem(STY) case 0x8D => Mem(STA) case 0x8E => Mem(STX) case 0x8F => Bra(BBS)
    case 0x90 => Bra(BCC) case 0x91 => Mem(STA) case 0x92 => Mem(STA) case 0x93 => NOP
    case 0x94 => Mem(STY) case 0x95 => Mem(STA) case 0x96 => Mem(STX) case 0x97 => Mem(SMB)
    case 0x98 => Reg(TYA) case 0x99 => Mem(STA) case 0x9A => Reg(TXS) case 0x9B => NOP
    case 0x9C => Mem(STZ) case 0x9D => Mem(STA) case 0x9E => Mem(STZ) case _ => Bra(BBS)
  }

  function CmosRow5(op: uint8): Handler {
    match op
    case 0xA0 => Reg(LDY) case 0xA1 => Reg(LDA) case 0xA2 => Reg(LDX) case 0xA3 => NOP
    case 0xA4 => Reg(LDY) case 0xA5 => Reg(LDA) case 0xA6 => Reg(LDX) case 0xA7 => Mem(SMB)
    case 0xA8 => Reg(TAY) case 0xA9 => Reg(LDA) case 0xAA => Reg(TAX) case 0xAB => NOP
    case 0xAC => Reg(LDY) case 0xAD => Reg(LDA) case 0xAE => Reg(LDX) case 0xAF => Bra(BBS)
    case 0xB0 => Bra(BCS) case 0xB1 => Reg(LDA) case 0xB2 => Reg(LDA) case 0xB3 => NOP
    case 0xB4 => Reg(LDY) case 0xB5 => Reg(LDA) case 0xB6 => Reg(LDX) case 0xB7 => Mem(SMB)
    case 0xB8 => Reg(CLV) case 0xB9 => Reg(LDA) case 0xBA => Reg(TSX) case 0xBB => NOP
    case 0xBC => Reg(LDY) case 0xBD => Reg(LDA) case 0xBE => Reg(LDX) case _ => Bra(BBS)
  }

  function CmosRow6(op: uint8): Handler {
    match op
    case 0xC0 => Reg(CPY) case 0xC1 => Reg(CMP) case 0xC2 => NOP case 0xC3 => NOP
    case 0xC4 => Reg(CPY) case 0xC5 => Reg(CMP) case 0xC6 => Mem(DEC) case 0xC7 => Mem(SMB)
    case 0xC8 => Reg(INY) case 0xC9 => Reg(CMP) case 0xCA => Reg(DEX) case 0xCB => WAI
    case 0xCC => Reg(CPY) case 0xCD => Reg(CMP) case 0xCE => Mem(DEC) case 0xCF => Bra(BBS)
    case 0xD0 => Bra(BNE) case 0xD1 => Reg(CMP) case 0xD2 => Reg(CMP) case 0xD3 => NOP
    case 0xD4 => NOPREAD case 0xD5 => Reg(CMP) case 0xD6 => Mem(DEC) case 0xD7 => Mem(SMB)
    case 0xD8 => Reg(CLD) case 0xD9 => Reg(CMP) case 0xDA => Psh(PHX) case 0xDB => STP
    case 0xDC => NOPREAD case 0xDD => Reg(CMP) case 0xDE => Mem(DEC) case _ => Bra(BBS)
  }

  function CmosRow7(op: uint8): Handler {
    match op
    case 0xE0 => Reg(CPX) case 0xE1 => Reg(SBC) case 0xE2 => NOP case 0xE3 => NOP
    case 0xE4 => Reg(CPX) case 0xE5 => Reg(SBC) case 0xE6 => Mem(INC) case 0xE7 => Mem(SMB)
    case 0xE8 => Reg(INX) case 0xE9 => Reg(SBC) case 0xEA => NOP case 0xEB => NOP
    case 0xEC => Reg(CPX) case 0xED => Reg(SBC) case 0xEE => Mem(INC) case 0xEF => Bra(BBS)
    case 0xF0 => Bra(BEQ) case 0xF1 => Reg(SBC) case 0xF2 => Reg(SBC) case 0xF3 => NOP
    case 0xF4 => NOPREAD case 0xF5 => Reg(SBC) case 0xF6 => Mem(INC) case 0xF7 => Mem(SMB)
    case 0xF8 => Reg(SED) case 0xF9 => Reg(SBC) case 0xFA => Pul(PLX) case 0xFB => NOP
    case 0xFC => NOPREAD case 0xFD => Reg(SBC) case 0xFE => Mem(INC) case _ => Bra(BBS)
  }

  /** The opcodes NMOS runs with a handler of its own. */
  function NmosOverride(op: uint8): Option<Handler>
  {
    match op
    case 0x02 | 0x12 | 0x22 | 0x32 | 0x42 | 0x52 | 0x62 | 0x72 |
         0x92 | 0xB2 | 0xD2 | 0xF2 => Some(KIL)
    case 0x03 | 0x13 | 0x07 | 0x17 | 0x1B | 0x0F | 0x1F => Some(Mem(SLO))
    case 0x23 | 0x33 | 0x27 | 0x37 | 0x3B | 0x2F | 0x3F => Some(Mem(RLA))
    case 0x43 | 0x53 | 0x47 | 0x57 | 0x5B | 0x4F | 0x5F => Some(Mem(SRE))
    case 0x63 | 0x73 | 0x67 | 0x77 | 0x7B | 0x6F | 0x7F => Some(Mem(RRA))
    case 0x83 | 0x87 | 0x97 | 0x8F => Some(Mem(SAX))
    case 0x93 | 0x04 | 0x0C | 0x14 | 0x1C | 0x64 | 0x74 | 0x34 |
         0x3C | 0x7C => Some(NOPREAD)
    case 0xA3 | 0xB3 | 0xA7 | 0xB7 | 0xAF | 0xBF => Some(Reg(LAX))
    case 0xC3 | 0xD3 | 0xC7 | 0xD7 | 0xCF | 0xDF => Some(Mem(DCP))
    case 0xE3 | 0xF3 | 0xE7 | 0xF7 | 0xFB | 0xEF | 0xFF => Some(Mem(ISC))
    case 0x0B | 0x2B => Some(Reg(ANC))
    case 0x4B => Some(Reg(ALR))
    case 0x6B => Some(Reg(ARR))
    case 0x8B | 0x9B | 0xAB | 0xBB | 0xCB | 0xDB | 0x9F => Some(ILLEGAL)
    case 0xEB => Some(Reg(USBC))
    case 0x1A | 0x3A | 0x5A | 0x7A | 0x89 | 0xDA | 0xFA => Some(NOP)
    case _ => None
  }

  function HandlerOf(variant: Variant, op: uint8): Handler {
    if variant == NMOS && NmosOverride(op).Some? then NmosOverride(op).value else CmosHandler(op)
  }
}
