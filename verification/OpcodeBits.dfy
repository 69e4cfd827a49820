/** Handler, addressing mode and base cycles read off the bits of the opcode: row `a` of eight, column `b` of eight,
    and `c` of four in `op == 32 * a + 4 * b + c`. */
module OpcodeBits {
  import opened MachineState
  import opened Addressing
  import opened Instructions

  /** Row `a` of the column shared by all accumulator instructions. */
  const ACCUMULATOR_ROWS: seq<Handler> :=
    [Reg(ORA), Reg(AND), Reg(EOR), Reg(ADC), Mem(STA), Reg(LDA), Reg(CMP), Reg(SBC)]

  const SHIFT_ROWS: seq<Handler> :=
    [Shf(ASL), Shf(ROL), Shf(LSR), Shf(ROR), Mem(STX), Reg(LDX), Mem(DEC), Mem(INC)]

  const BRANCH_ROWS: seq<Handler> :=
    [Bra(BPL), Bra(BMI), Bra(BVC), Bra(BVS), Bra(BCC), Bra(BCS), Bra(BNE), Bra(BEQ)]

  const FUSED_ROWS: seq<Handler> :=
    [Mem(SLO), Mem(RLA), Mem(SRE), Mem(RRA), Mem(SAX), Reg(LAX), Mem(DCP), Mem(ISC)]

  /** `c == 0`: control, flags, branches, Y and X with memory. */
  function ControlColumn(variant: Variant, a: nat, b: nat): Handler
    requires a < 8 && b < 8
  {
    match b
    case 0 => [BRK, JSR, RTI, RTS, Bra(BRA), Reg(LDY), Reg(CPY), Reg(CPX)][a]
    case 2 => [Psh(PHP), Pul(PLP), Psh(PHA), Pul(PLA), Reg(DEY), Reg(TAY), Reg(INY), Reg(INX)][a]
    case 4 => BRANCH_ROWS[a]
    case 6 => [Reg(CLC), Reg(SEC), Reg(CLI), Reg(SEI), Reg(TYA), Reg(CLV), Reg(CLD), Reg(SED)][a]
    case _ =>
      match a
      case 0 => if variant == NMOS then NOPREAD else if b < 4 then Mem(TSB) else Mem(TRB)
      case 1 => if variant == NMOS && b > 4 then NOPREAD else Reg(BIT)
      case 2 => if b == 3 then JMP else NOPREAD
      case 3 => if b == 3 || (b == 7 && variant == CMOS) then JMP
                else if variant == CMOS then Mem(STZ) else NOPREAD
      case 4 => if b == 7 then Mem(STZ) else Mem(STY)
      case 5 => Reg(LDY)
      case 6 => if b < 4 then Reg(CPY) else NOPREAD
      case _ => if b < 4 then Reg(CPX) else NOPREAD
  }

  /** `c == 1`: the accumulator instructions; the slot of STA immediate is BIT immediate on CMOS. */
  function AccumulatorColumn(variant: Variant, a: nat, b: nat): Handler
    requires a < 8
  {
    if a == 4 && b == 2 then (if variant == CMOS then Reg(BIT) else NOP) else ACCUMULATOR_ROWS[a]
  }

  /** `c == 2`: shifts, X with memory, counting; on CMOS also (zp) and the X and Y stack instructions. */
  function ShiftColumn(variant: Variant, a: nat, b: nat): Handler
    requires a < 8 && b < 8
  {
    match b
    case 0 => if a == 5 then Reg(LDX) else if variant == NMOS && a < 4 then KIL else NOP
    case 2 => [Shf(ASL), Shf(ROL), Shf(LSR), Shf(ROR), Reg(TXA), Reg(TAX), Reg(DEX), NOP][a]
    case 4 => if variant == NMOS then KIL else ACCUMULATOR_ROWS[a]
    case 6 => if a == 4 then Reg(TXS) else if a == 5 then Reg(TSX)
              else if variant == NMOS then NOP
              else [Reg(INCA), Reg(DECA), Psh(PHY), Pul(PLY), NOP, NOP, Psh(PHX), Pul(PLX)][a]
    case _ => if a == 4 && b == 7 then Mem(STZ) else SHIFT_ROWS[a]
  }

  /** `c == 3` on CMOS: bit instructions in the odd columns, WAI and STP. */
  function BitColumn(a: nat, b: nat): Handler {
    if b % 4 == 1 then (if a < 4 then Mem(RMB) else Mem(SMB))
    else if b % 4 == 3 then (if a < 4 then Bra(BBR) else Bra(BBS))
    else if a == 6 && b == 2 then WAI
    else if a == 6 && b == 6 then STP
    else NOP
  }

  /** `c == 3` on NMOS: the undocumented instructions. */
  function FusedColumn(a: nat, b: nat): Handler
    requires a < 8 && b < 8
  {
    if b == 2 then [Reg(ANC), Reg(ANC), Reg(ALR), Reg(ARR), ILLEGAL, ILLEGAL, ILLEGAL, Reg(USBC)][a]
    else if a == 4 && b == 4 then NOPREAD
    else if (a == 4 && b > 5) || ((a == 5 || a == 6) && b == 6) then ILLEGAL
    else FUSED_ROWS[a]
  }

  function HandlerByBits(variant: Variant, a: nat, b: nat, c: nat): Handler
    requires a < 8 && b < 8
  {
    match c
    case 0 => ControlColumn(variant, a, b)
    case 1 => AccumulatorColumn(variant, a, b)
    case 2 => ShiftColumn(variant, a, b)
    case _ => if variant == CMOS then BitColumn(a, b) else FusedColumn(a, b)
  }

  /** Column `b` of the accumulator instructions. */
  const ACCUMULATOR_MODES: seq<Mode> := [IndX, Zp, Imm, Abs, IndY, ZpX, AbsY, AbsX]

  function ModeByBits(variant: Variant, a: nat, b: nat, c: nat): Mode
    requires a < 8 && b < 8
  {
    match c
    case 0 => ControlMode(variant, a, b)
    case 1 => ACCUMULATOR_MODES[b]
    case 2 => ShiftMode(a, b)
    case _ => if variant == CMOS then [Implied, Zp, Implied, ZpRel][b % 4] else FusedMode(a, b)
  }

  function ControlMode(variant: Variant, a: nat, b: nat): Mode
    requires a < 8 && b < 8
  {
    match b
    case 0 => [Implied, Abs, Implied, Implied, Rel, Imm, Imm, Imm][a]
    case 1 => Zp
    case 3 => if a == 3 then Ind else Abs
    case 4 => Rel
    case 5 => if variant == CMOS && a == 0 then Zp else ZpX
    case 7 => if a == 4 then Abs
              else if variant == NMOS then AbsX
              else if a == 0 || a == 2 || a == 6 then Abs
              else if a == 3 then AbsIndX
              else AbsX
    case _ => Implied
  }

  /** X indexed by Y where X itself is stored or loaded. */
  function ShiftMode(a: nat, b: nat): Mode
    requires a < 8 && b < 8
  {
    match b
    case 0 => Imm
    case 1 => Zp
    case 2 => if a < 4 then Acc else Implied
    case 3 => Abs
    case 4 => ZpInd
    case 5 => if a == 4 || a == 5 then ZpY else ZpX
    case 6 => if a < 2 then Acc else Implied
    case _ => if a == 5 then AbsY else AbsX
  }

  function FusedMode(a: nat, b: nat): Mode
    requires a < 8 && b < 8
  {
    if a == 4 || a == 5 then
      match b
      case 2 => Implied
      case 4 => if a == 4 then AbsY else IndY
      case 5 => ZpY
      case 6 => Implied
      case 7 => AbsY
      case _ => ACCUMULATOR_MODES[b]
    else if a == 6 && b == 2 then Implied
    else ACCUMULATOR_MODES[b]
  }

  predicate Indexes(mode: Mode) {
    mode.AbsX? || mode.AbsY? || mode.IndY?
  }

  predicate StoresOnly(h: Handler) {
    h.Mem? && (h.memory.STA? || h.memory.STX? || h.memory.STY? || h.memory.STZ? || h.memory.SAX?)
  }

  /** Cycles to fetch an instruction and read its operand, no page being crossed. */
  function AccessCycles(mode: Mode): nat {
    match mode
    case Implied | Acc | Imm | Rel => 2
    case Zp => 3
    case ZpX | ZpY | Abs | AbsX | AbsY => 4
    case IndY | ZpInd | Ind | ZpRel => 5
    case IndX | AbsIndX => 6
  }

  /** Documented cycles: a store through an index always pays for the page, a read-modify-write two cycles more. */
  function ClassCycles(h: Handler, mode: Mode): nat {
    var index := if Indexes(mode) then 1 else 0;
    match h
    case Mem(_) => if StoresOnly(h) then AccessCycles(mode) + index else AccessCycles(mode) + 2 + index
    case Shf(_) => if mode == Acc then 2 else AccessCycles(mode) + 2 + index
    case Psh(_) => 3
    case Pul(_) => 4
    case JSR | RTS | RTI => 6
    case BRK => 7
    case JMP => if mode == Abs then 3 else AccessCycles(mode)
    case WAI | STP => 3
    case _ => AccessCycles(mode)
  }

  /** `c == 3`, as NMOS times it; five slots that do nothing keep the time of the instruction they replace. */
  function FusedCycles(a: nat, b: nat): nat
    requires a < 8 && b < 8
  {
    if a == 4 && b == 4 then 6
    else if a == 4 && b > 5 then 5
    else if a == 5 && b == 6 then 4
    else if a == 6 && b == 6 then 7
    else ClassCycles(FusedColumn(a, b), FusedMode(a, b))
  }

  /** CMOS keeps the NMOS time of the column, but for branches on bits, WAI and STP. */
  function BitCycles(a: nat, b: nat): nat
    requires a < 8 && b < 8
  {
    if b % 4 == 3 then 5
    else if a == 6 && (b == 2 || b == 6) then 3
    else FusedCycles(a, b)
  }

  function CyclesByBits(variant: Variant, a: nat, b: nat, c: nat): nat
    requires a < 8 && b < 8
  {
    var h := HandlerByBits(variant, a, b, c);
    if c == 3 then (if variant == CMOS then BitCycles(a, b) else FusedCycles(a, b))
    else if h == KIL then (if b == 0 then 0 else 5)
    else if variant == NMOS && c == 0 && b == 7 && a == 3 then 6
    else if variant == NMOS && c == 0 && b == 7 && a == 4 then 5
    else if variant == CMOS && c == 0 && b == 7 && a > 5 then 5
    else ClassCycles(h, ModeByBits(variant, a, b, c))
  }
}
