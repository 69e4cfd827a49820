/** Opcode to addressing mode, before any per-variant override. */
module InstructionTable {
  import opened Types
  import opened Addressing

  function TableMode(op: uint8): Mode {
    if op < 0x20 then ModeRow0(op)
    else if op < 0x40 then ModeRow1(op)
    else if op < 0x60 then ModeRow2(op)
    else if op < 0x80 then ModeRow3(op)
    else if op < 0xA0 then ModeRow4(op)
    else if op < 0xC0 then ModeRow5(op)
    else if op < 0xE0 then ModeRow6(op)
    else ModeRow7(op)
  }

  function ModeRow0(op: uint8): Mode {
    match op
    case 0x00 => Implied case 0x01 => IndX case 0x02 => Imm case 0x03 => Implied
    case 0x04 => Zp case 0x05 => Zp case 0x06 => Zp case 0x07 => Zp
    case 0x08 => Implied case 0x09 => Imm case 0x0A => Acc case 0x0B => Imm
    case 0x0C => Abs case 0x0D => Abs case 0x0E => Abs case 0x0F => ZpRel
    case 0x10 => Rel case 0x11 => IndY case 0x12 => ZpInd case 0x13 => Implied
    case 0x14 => Zp case 0x15 => ZpX case 0x16 => ZpX case 0x17 => Zp
    case 0x18 => Implied case 0x19 => AbsY case 0x1A => Acc case 0x1B => Implied
    case 0x1C => Abs case 0x1D => AbsX case 0x1E => AbsX case _ => ZpRel
  }

  function ModeRow1(op: uint8): Mode {
    match op
    case 0x20 => Abs case 0x21 => IndX case 0x22 => Imm case 0x23 => Implied
    case 0x24 => Zp case 0x25 => Zp case 0x26 => Zp case 0x27 => Zp
    case 0x28 => Implied case 0x29 => Imm case 0x2A => Acc case 0x2B => Imm
    case 0x2C => Abs case 0x2D => Abs case 0x2E => Abs case 0x2F => ZpRel
    case 0x30 => Rel case 0x31 => IndY case 0x32 => ZpInd case 0x33 => Implied
    case 0x34 => ZpX case 0x35 => ZpX case 0x36 => ZpX case 0x37 => Zp
    case 0x38 => Implied case 0x39 => AbsY case 0x3A => Acc case 0x3B => Implied
    case 0x3C => AbsX case 0x3D => AbsX case 0x3E => AbsX case _ => ZpRel
  }

  function ModeRow2(op: uint8): Mode {
    match op
    case 0x40 => Implied case 0x41 => IndX case 0x42 => Imm case 0x43 => Implied
    case 0x44 => Zp case 0x45 => Zp case 0x46 => Zp case 0x47 => Zp
    case 0x48 => Implied case 0x49 => Imm case 0x4A => Acc case 0x4B => Imm
    case 0x4C => Abs case 0x4D => Abs case 0x4E => Abs case 0x4F => ZpRel
    case 0x50 => Rel case 0x51 => IndY case 0x52 => ZpInd case 0x53 => Implied
    case 0x54 => ZpX case 0x55 => ZpX case 0x56 => ZpX case 0x57 => Zp
    case 0x58 => Implied case 0x59 => AbsY case 0x5A => Implied case 0x5B => Implied
    case 0x5C => Abs case 0x5D => AbsX case 0x5E => AbsX case _ => ZpRel
  }

  function ModeRow3(op: uint8): Mode {
    match op
    case 0x60 => Implied case 0x61 => IndX case 0x62 => Imm case 0x63 => Implied
    case 0x64 => Zp case 0x65 => Zp case 0x66 => Zp case 0x67 => Zp
    case 0x68 => Implied case 0x69 => Imm case 0x6A => Acc case 0x6B => Imm
    case 0x6C => Ind case 0x6D => Abs case 0x6E => Abs case 0x6F => ZpRel
    case 0x70 => Rel case 0x71 => IndY case 0x72 => ZpInd case 0x73 => Implied
    case 0x74 => ZpX case 0x75 => ZpX case 0x76 => ZpX case 0x77 => Zp
    case 0x78 => Implied case 0x79 => AbsY case 0x7A => Implied case 0x7B => Implied
    case 0x7C => AbsIndX case 0x7D => AbsX case 0x7E => AbsX case _ => ZpRel
  }

  function ModeRow4(op: uint8): Mode {
    match op
    case 0x80 => Rel case 0x81 => IndX case 0x82 => Imm case 0x83 => Implied
    case 0x84 => Zp case 0x85 => Zp case 0x86 => Zp case 0x87 => Zp
    case 0x88 => Implied case 0x89 => Imm case 0x8A => Implied case 0x8B => Implied
    case 0x8C => Abs case 0x8D => Abs case 0x8E => Abs case 0x8F => ZpRel
    case 0x90 => Rel case 0x91 => IndY case 0x92 => ZpInd case 0x93 => Implied
    case 0x94 => ZpX case 0x95 => ZpX case 0x96 => ZpY case 0x97 => Zp
    case 0x98 => Implied case 0x99 => AbsY case 0x9A => Implied case 0x9B => Implied
    case 0x9C => Abs case 0x9D => AbsX case 0x9E => AbsX case _ => ZpRel
  }

  function ModeRow5(op: uint8): Mode {
    match op
    case 0xA0 => Imm case 0xA1 => IndX case 0xA2 => Imm case 0xA3 => Implied
    case 0xA4 => Zp case 0xA5 => Zp case 0xA6 => Zp case 0xA7 => Zp
    case 0xA8 => Implied case 0xA9 => Imm case 0xAA => Implied case 0xAB => Implied
    case 0xAC => Abs case 0xAD => Abs case 0xAE => Abs case 0xAF => ZpRel
    case 0xB0 => Rel case 0xB1 => IndY case 0xB2 => ZpInd case 0xB3 => Implied
    case 0xB4 => ZpX case 0xB5 => ZpX case 0xB6 => ZpY case 0xB7 => Zp
    case 0xB8 => Implied case 0xB9 => AbsY case 0xBA => Implied case 0xBB => Implied
    case 0xBC => AbsX case 0xBD => AbsX case 0xBE => AbsY case _ => ZpRel
  }

  function ModeRow6(op: uint8): Mode {
    match op
    case 0xC0 => Imm case 0xC1 => IndX case 0xC2 => Imm case 0xC3 => Implied
    case 0xC4 => Zp case 0xC5 => Zp case 0xC6 => Zp case 0xC7 => Zp
    case 0xC8 => Implied case 0xC9 => Imm case 0xCA => Implied case 0xCB => Implied
    case 0xCC => Abs case 0xCD => Abs case 0xCE => Abs case 0xCF => ZpRel
    case 0xD0 => Rel case 0xD1 => IndY case 0xD2 => ZpInd case 0xD3 => Implied
    case 0xD4 => ZpX case 0xD5 => ZpX case 0xD6 => ZpX case 0xD7 => Zp
    case 0xD8 => Implied case 0xD9 => AbsY case 0xDA => Implied case 0xDB => Implied
    case 0xDC => Abs case 0xDD => AbsX case 0xDE => AbsX case _ => ZpRel
  }

  function ModeRow7(op: uint8): Mode {
    match op
    case 0xE0 => Imm case 0xE1 => IndX case 0xE2 => Imm case 0xE3 => Implied
    case 0xE4 => Zp case 0xE5 => Zp case 0xE6 => Zp case 0xE7 => Zp
    case 0xE8 => Implied case 0xE9 => Imm case 0xEA => Implied case 0xEB => Imm
    case 0xEC => Abs case 0xED => Abs case 0xEE => Abs case 0xEF => ZpRel
    case 0xF0 => Rel case 0xF1 => IndY case 0xF2 => ZpInd case 0xF3 => Implied
    case 0xF4 => ZpX case 0xF5 => ZpX case 0xF6 => ZpX case 0xF7 => Zp
    case 0xF8 => Implied case 0xF9 => AbsY case 0xFA => Implied case 0xFB => Implied
    case 0xFC => AbsX case 0xFD => AbsX case 0xFE => AbsX case _ => ZpRel
  }
}
