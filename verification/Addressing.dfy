/** Addressing modes: operand length, effective address, page crossing. */
module Addressing {
  import opened Types
  import opened MachineState
  import Bus

  datatype Mode =
    | Implied | Acc | Imm | Zp | ZpX | ZpY | Abs | AbsX | AbsY | Ind
    | IndX | IndY | Rel | ZpRel | ZpInd | AbsIndX

  /** Operand bytes an instruction in the given mode fetches after its opcode. */
  function OperandBytes(mode: Mode): nat {
    match mode
    case Implied | Acc => 0
    case Imm | Zp | ZpX | ZpY | IndX | IndY | Rel | ZpInd => 1
    case Abs | AbsX | AbsY | Ind | ZpRel | AbsIndX => 2
  }

  /** First operand byte; PC already points past the opcode. */
  function Operand8(m: Machine): uint8 {
    Bus.Read(m.bus, m.r.pc)
  }

  function Operand16(m: Machine): uint16 {
    Bus.Read16(m.bus, m.r.pc)
  }

  /** A pointer stored in page 0, its high byte wrapping within the page. */
  function ZeroPagePointer(m: Machine, zp: uint8): uint16 {
    Word(Bus.Read(m.bus, zp), Bus.Read(m.bus, Low8(zp + 1)))
  }

  /** Target of `JMP (base)`: the NMOS part does not carry into the pointer's high byte. */
  function IndirectTarget(m: Machine, base: uint16): uint16 {
    if m.variant == NMOS && base % 0x100 == 0xFF then
      Word(Bus.Read(m.bus, base), Bus.Read(m.bus, base - 0xFF))
    else
      Bus.Read16(m.bus, base)
  }

  function EffectiveAddress(mode: Mode, m: Machine): uint16 {
    match mode
    case Implied | Acc => 0
    case Imm | Zp | ZpRel => Operand8(m)
    case ZpX => Low8(m.r.x + Operand8(m))
    case ZpY => Low8(m.r.y + Operand8(m))
    case Abs => Operand16(m)
    case AbsX => Low16(Operand16(m) + m.r.x)
    case AbsY => Low16(Operand16(m) + m.r.y)
    case Ind => IndirectTarget(m, Operand16(m))
    case IndX => ZeroPagePointer(m, Low8(Operand8(m) + m.r.x))
    case IndY => Low16(ZeroPagePointer(m, Operand8(m)) + m.r.y)
    case Rel => Low16(m.r.pc + 1 + Signed8(Operand8(m)))
    case ZpInd => ZeroPagePointer(m, Operand8(m))
    case AbsIndX => Bus.Read16(m.bus, Low16(Operand16(m) + m.r.x))
  }

  predicate HasEa(mode: Mode) {
    !(mode.Implied? || mode.Acc? || mode.Imm? || mode.Rel?)
  }

  predicate CrossesPage(mode: Mode, m: Machine) {
    match mode
    case AbsX => !SamePage(Operand16(m), Low16(Operand16(m) + m.r.x))
    case AbsY => !SamePage(Operand16(m), Low16(Operand16(m) + m.r.y))
    case IndY =>
      var base := ZeroPagePointer(m, Operand8(m));
      !SamePage(base, Low16(base + m.r.y))
    case _ => false
  }

  function RelOffset(mode: Mode, m: Machine): int8 {
    if mode.ZpRel? then Signed8(Bus.Read(m.bus, Low16(m.r.pc + 1))) else m.latch.relOffset
  }

  function Resolve(mode: Mode, m: Machine): Machine {
    WithPc(m, m.r.pc + OperandBytes(mode)).(
      latch := m.latch.(ea := EffectiveAddress(mode, m), hasEa := HasEa(mode),
                        pageCross := CrossesPage(mode, m), relOffset := RelOffset(mode, m)))
  }

  lemma AddressIgnoresLatch(mode: Mode, m: Machine, t: Machine)
    requires m.r == t.r && m.bus == t.bus && m.variant == t.variant
    ensures EffectiveAddress(mode, m) == EffectiveAddress(mode, t)
    ensures CrossesPage(mode, m) == CrossesPage(mode, t)
    ensures m.latch.relOffset == t.latch.relOffset ==> RelOffset(mode, m) == RelOffset(mode, t)
  {
    hide Bus.Read, Bus.Read16, Low8, Low16, Signed8, SamePage;
  }
}
