/** What NMOS makes of the opcodes the 65C02 added. */
module Tables {
  import opened Types
  import opened MachineState
  import opened Addressing
  import opened Instructions
  import InstructionTable
  import Handlers
  import Bus

  /** Instructions, by handler, that only the 65C02 has. */
  predicate AddedHandler(h: Handler) {
    match h
    case Bra(op) => op.BRA? || op.BBR? || op.BBS?
    case Psh(op) => op.PHX? || op.PHY?
    case Pul(op) => op.PLX? || op.PLY?
    case Mem(op) => op.STZ? || op.TRB? || op.TSB? || op.RMB? || op.SMB?
    case Reg(op) => op.INCA? || op.DECA?
    case WAI | STP => true
    case _ => false
  }

  /** Addressing modes the 65C02 added, to any instruction or to BIT. */
  predicate AddedMode(h: Handler, mode: Mode) {
    mode.ZpInd? || mode.AbsIndX? || (h == Reg(BIT) && (mode.Imm? || mode.ZpX? || mode.AbsX?))
  }

  predicate IsAddition(op: uint8) {
    var h := Handlers.CmosHandler(op);
    AddedHandler(h) || AddedMode(h, InstructionTable.TableMode(op))
  }

  predicate IsNop(h: Handler) {
    h.NOP? || h.NOPREAD? || h.ILLEGAL?
  }

  /** The handlers taken for NOPs do nothing. */
  lemma NopsDoNothing(h: Handler, m: Machine)
    requires IsNop(h)
    ensures Exec(h, m) == m
  {
  }

  /** The additions as a table. */
  predicate ListedAddition(op: uint8) {
    match op
    case 0x04 | 0x07 | 0x0C | 0x0F | 0x12 | 0x14 | 0x17 | 0x1A | 0x1C | 0x1F | 0x27 | 0x2F | 0x32 | 0x34 | 0x37 | 0x3A
       | 0x3C | 0x3F | 0x47 | 0x4F | 0x52 | 0x57 | 0x5A | 0x5F | 0x64 | 0x67 | 0x6F | 0x72 | 0x74 | 0x77 | 0x7A | 0x7C
       | 0x7F | 0x80 | 0x87 | 0x89 | 0x8F | 0x92 | 0x97 | 0x9C | 0x9E | 0x9F | 0xA7 | 0xAF | 0xB2 | 0xB7 | 0xBF
       | 0xC7 | 0xCB | 0xCF | 0xD2 | 0xD7 | 0xDA | 0xDB | 0xDF | 0xE7 | 0xEF | 0xF2 | 0xF7 | 0xFA | 0xFF => true
    case _ => false
  }

  lemma HandlersListed(op: uint8)
    ensures AddedHandler(Handlers.CmosHandler(op)) ==> ListedAddition(op)
  {
    if op < 0x40 {
    } else if op < 0x80 {
    } else if op < 0xC0 {
    } else {
    }
  }

  lemma ModesListed(op: uint8)
    ensures AddedMode(Handlers.CmosHandler(op), InstructionTable.TableMode(op)) ==> ListedAddition(op)
  {
    hide Handlers.CmosHandler;
    BitsListed(op);
  }

  lemma BitsListed(op: uint8)
    ensures Handlers.CmosHandler(op) == Reg(BIT) ==> op in {0x24, 0x2C, 0x34, 0x3C, 0x89}
  {
  }

  /** The additions that do something on NMOS: the three left to the 65C02 handler, the ones that halt the CPU,
      and the RMB, SMB, BBR and BBS columns, where NMOS has undocumented instructions. */
  predicate ActsOnNmos(op: uint8) {
    op in {0x80, 0x9C, 0x9E} || op % 0x20 == 0x12 || (op % 8 == 7 && op != 0x9F)
  }

  lemma ListedOnNmos(op: uint8)
    requires ListedAddition(op)
    ensures op in {0x80, 0x9C, 0x9E} ==> Handlers.NmosOverride(op).None?
    ensures op !in {0x80, 0x9C, 0x9E} ==> Handlers.NmosOverride(op).Some?
    ensures op !in {0x80, 0x9C, 0x9E} ==> (IsNop(Handlers.NmosOverride(op).value) <==> !ActsOnNmos(op))
    ensures op !in {0x80, 0x9C, 0x9E} ==> !AddedHandler(Handlers.NmosOverride(op).value)
  {
  }

  lemma ThreeRemain(op: uint8)
    requires op in {0x80, 0x9C, 0x9E}
    ensures Handlers.CmosHandler(op) in {Bra(BRA), Mem(STZ)}
  {
  }

  /** An opcode the 65C02 added is a NOP on NMOS iff it is in none of those groups. */
  lemma AdditionsAreNops(op: uint8)
    requires IsAddition(op)
    ensures IsNop(Handlers.HandlerOf(NMOS, op)) <==> !ActsOnNmos(op)
  {
    hide Handlers.CmosHandler, Handlers.NmosOverride, AddedHandler, AddedMode, ListedAddition, InstructionTable.TableMode;
    HandlersListed(op);
    ModesListed(op);
    ListedOnNmos(op);
    if op in {0x80, 0x9C, 0x9E} {
      ThreeRemain(op);
    }
  }

  /** On NMOS the handlers the 65C02 added are replaced, except exactly three opcodes that still run as BRA and STZ. */
  lemma AdditionsOnNmos(op: uint8)
    requires AddedHandler(Handlers.CmosHandler(op))
    ensures AddedHandler(Handlers.HandlerOf(NMOS, op)) <==> op in {0x80, 0x9C, 0x9E}
  {
    hide Handlers.CmosHandler, Handlers.NmosOverride, AddedHandler, ListedAddition;
    HandlersListed(op);
    ListedOnNmos(op);
  }

  /** $07, RMB0 on the 65C02, shifts its operand and ORs it into A on NMOS. */
  lemma Opcode07Acts(m: Machine)
    requires Bus.Writable(m.bus, m.latch.ea) && Target(m) == 1 && m.r.a == 0
    ensures IsAddition(0x07)
    ensures var t := Exec(Handlers.HandlerOf(NMOS, 0x07), m); Target(t) == 2 && t.r.a == 2
  {
    Bus.WriteAgrees(m.bus, m.latch.ea, 2);
    assert Or8(0, 2) == 2;
  }
}
