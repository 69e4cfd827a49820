/** The dispatch, mode and cycle tables are what the bits of the opcode say, in all 256 entries on both variants. */
module OpcodeTables {
  import opened Types
  import opened StatusRegister
  import opened MachineState
  import opened Addressing
  import opened Instructions
  import opened OpcodeBits
  import InstructionTable
  import Handlers
  import Cpu

  /** The mode table before any override; it still takes eight NMOS immediates for CMOS. */
  function TableByBits(a: nat, b: nat, c: nat): Mode
    requires a < 8 && b < 8
  {
    if c == 3 && b == 2 && (a < 4 || a == 7) then Imm else ModeByBits(CMOS, a, b, c)
  }

  /** What an override must say for the variant to have `wanted` where the shared table has `shared`. */
  predicate Overrides<T(==)>(own: Option<T>, shared: T, wanted: T) {
    if own.Some? then own.value == wanted else shared == wanted
  }

  lemma HandlersRow0(b: nat, c: nat, op: uint8)
    requires b < 8 && c < 4 && op == 4 * b + c
    ensures Handlers.CmosHandler(op) == HandlerByBits(CMOS, 0, b, c)
  {
  }

  lemma HandlersRow1(b: nat, c: nat, op: uint8)
    requires b < 8 && c < 4 && op == 32 + 4 * b + c
    ensures Handlers.CmosHandler(op) == HandlerByBits(CMOS, 1, b, c)
  {
  }

  lemma HandlersRow2(b: nat, c: nat, op: uint8)
    requires b < 8 && c < 4 && op == 64 + 4 * b + c
    ensures Handlers.CmosHandler(op) == HandlerByBits(CMOS, 2, b, c)
  {
  }

  lemma HandlersRow3(b: nat, c: nat, op: uint8)
    requires b < 8 && c < 4 && op == 96 + 4 * b + c
    ensures Handlers.CmosHandler(op) == HandlerByBits(CMOS, 3, b, c)
  {
  }

  lemma HandlersRow4(b: nat, c: nat, op: uint8)
    requires b < 8 && c < 4 && op == 128 + 4 * b + c
    ensures Handlers.CmosHandler(op) == HandlerByBits(CMOS, 4, b, c)
  {
  }

  lemma HandlersRow5(b: nat, c: nat, op: uint8)
    requires b < 8 && c < 4 && op == 160 + 4 * b + c
    ensures Handlers.CmosHandler(op) == HandlerByBits(CMOS, 5, b, c)
  {
  }

  lemma HandlersRow6(b: nat, c: nat, op: uint8)
    requires b < 8 && c < 4 && op == 192 + 4 * b + c
    ensures Handlers.CmosHandler(op) == HandlerByBits(CMOS, 6, b, c)
  {
  }

  lemma HandlersRow7(b: nat, c: nat, op: uint8)
    requires b < 8 && c < 4 && op == 224 + 4 * b + c
    ensures Handlers.CmosHandler(op) == HandlerByBits(CMOS, 7, b, c)
  {
  }

  lemma ModesRow0(b: nat, c: nat, op: uint8)
    requires b < 8 && c < 4 && op == 4 * b + c
    ensures InstructionTable.TableMode(op) == TableByBits(0, b, c)
  {
  }

  lemma ModesRow1(b: nat, c: nat, op: uint8)
    requires b < 8 && c < 4 && op == 32 + 4 * b + c
    ensures InstructionTable.TableMode(op) == TableByBits(1, b, c)
  {
  }

  lemma ModesRow2(b: nat, c: nat, op: uint8)
    requires b < 8 && c < 4 && op == 64 + 4 * b + c
    ensures InstructionTable.TableMode(op) == TableByBits(2, b, c)
  {
  }

  lemma ModesRow3(b: nat, c: nat, op: uint8)
    requires b < 8 && c < 4 && op == 96 + 4 * b + c
    ensures InstructionTable.TableMode(op) == TableByBits(3, b, c)
  {
  }

  lemma ModesRow4(b: nat, c: nat, op: uint8)
    requires b < 8 && c < 4 && op == 128 + 4 * b + c
    ensures InstructionTable.TableMode(op) == TableByBits(4, b, c)
  {
  }

  lemma ModesRow5(b: nat, c: nat, op: uint8)
    requires b < 8 && c < 4 && op == 160 + 4 * b + c
    ensures InstructionTable.TableMode(op) == TableByBits(5, b, c)
  {
  }

  lemma ModesRow6(b: nat, c: nat, op: uint8)
    requires b < 8 && c < 4 && op == 192 + 4 * b + c
    ensures InstructionTable.TableMode(op) == TableByBits(6, b, c)
  {
  }

  lemma ModesRow7(b: nat, c: nat, op: uint8)
    requires b < 8 && c < 4 && op == 224 + 4 * b + c
    ensures InstructionTable.TableMode(op) == TableByBits(7, b, c)
  {
  }

  lemma CyclesRow0(b: nat, c: nat, op: uint8)
    requires b < 8 && c < 4 && op == 4 * b + c
    ensures Cpu.CycleBase(op) == CyclesByBits(NMOS, 0, b, c)
  {
  }

  lemma CyclesRow1(b: nat, c: nat, op: uint8)
    requires b < 8 && c < 4 && op == 32 + 4 * b + c
    ensures Cpu.CycleBase(op) == CyclesByBits(NMOS, 1, b, c)
  {
  }

  lemma CyclesRow2(b: nat, c: nat, op: uint8)
    requires b < 8 && c < 4 && op == 64 + 4 * b + c
    ensures Cpu.CycleBase(op) == CyclesByBits(NMOS, 2, b, c)
  {
  }

  lemma CyclesRow3(b: nat, c: nat, op: uint8)
    requires b < 8 && c < 4 && op == 96 + 4 * b + c
    ensures Cpu.CycleBase(op) == CyclesByBits(NMOS, 3, b, c)
  {
  }

  lemma CyclesRow4(b: nat, c: nat, op: uint8)
    requires b < 8 && c < 4 && op == 128 + 4 * b + c
    ensures Cpu.CycleBase(op) == CyclesByBits(NMOS, 4, b, c)
  {
  }

  lemma CyclesRow5(b: nat, c: nat, op: uint8)
    requires b < 8 && c < 4 && op == 160 + 4 * b + c
    ensures Cpu.CycleBase(op) == CyclesByBits(NMOS, 5, b, c)
  {
  }

  lemma CyclesRow6(b: nat, c: nat, op: uint8)
    requires b < 8 && c < 4 && op == 192 + 4 * b + c
    ensures Cpu.CycleBase(op) == CyclesByBits(NMOS, 6, b, c)
  {
  }

  lemma CyclesRow7(b: nat, c: nat, op: uint8)
    requires b < 8 && c < 4 && op == 224 + 4 * b + c
    ensures Cpu.CycleBase(op) == CyclesByBits(NMOS, 7, b, c)
  {
  }

  lemma NmosHandlers0(a: nat, b: nat, op: uint8)
    requires a < 8 && b < 8 && op == 32 * a + 4 * b
    ensures Overrides(Handlers.NmosOverride(op), HandlerByBits(CMOS, a, b, 0), HandlerByBits(NMOS, a, b, 0))
  {
  }

  lemma NmosHandlers1(a: nat, b: nat, op: uint8)
    requires a < 8 && b < 8 && op == 32 * a + 4 * b + 1
    ensures Overrides(Handlers.NmosOverride(op), HandlerByBits(CMOS, a, b, 1), HandlerByBits(NMOS, a, b, 1))
  {
  }

  lemma NmosHandlers2(a: nat, b: nat, op: uint8)
    requires a < 8 && b < 8 && op == 32 * a + 4 * b + 2
    ensures Overrides(Handlers.NmosOverride(op), HandlerByBits(CMOS, a, b, 2), HandlerByBits(NMOS, a, b, 2))
  {
    if a < 4 {
    } else {
    }
  }

  lemma NmosHandlers3(a: nat, b: nat, op: uint8)
    requires a < 8 && b < 8 && op == 32 * a + 4 * b + 3
    ensures Overrides(Handlers.NmosOverride(op), HandlerByBits(CMOS, a, b, 3), HandlerByBits(NMOS, a, b, 3))
  {
  }

  lemma NmosModes0(a: nat, b: nat, op: uint8)
    requires a < 8 && b < 8 && op == 32 * a + 4 * b
    ensures Overrides(Cpu.NmosMode(op), TableByBits(a, b, 0), ModeByBits(NMOS, a, b, 0))
  {
  }

  lemma NmosModes1(a: nat, b: nat, op: uint8)
    requires a < 8 && b < 8 && op == 32 * a + 4 * b + 1
    ensures Overrides(Cpu.NmosMode(op), TableByBits(a, b, 1), ModeByBits(NMOS, a, b, 1))
  {
  }

  lemma NmosModes2(a: nat, b: nat, op: uint8)
    requires a < 8 && b < 8 && op == 32 * a + 4 * b + 2
    ensures Overrides(Cpu.NmosMode(op), TableByBits(a, b, 2), ModeByBits(NMOS, a, b, 2))
  {
  }

  lemma NmosModes3(a: nat, b: nat, op: uint8)
    requires a < 8 && b < 8 && op == 32 * a + 4 * b + 3
    ensures Overrides(Cpu.NmosMode(op), TableByBits(a, b, 3), ModeByBits(NMOS, a, b, 3))
  {
  }

  lemma CmosModesAt(a: nat, b: nat, c: nat, op: uint8)
    requires a < 8 && b < 8 && c < 4 && op == 32 * a + 4 * b + c
    ensures Overrides(Cpu.CmosMode(op), TableByBits(a, b, c), ModeByBits(CMOS, a, b, c))
  {
  }

  lemma CmosCycles0(a: nat, b: nat, op: uint8)
    requires a < 8 && b < 8 && op == 32 * a + 4 * b
    ensures Overrides(Cpu.CmosCycles(op), CyclesByBits(NMOS, a, b, 0), CyclesByBits(CMOS, a, b, 0))
  {
  }

  lemma CmosCycles1(a: nat, b: nat, op: uint8)
    requires a < 8 && b < 8 && op == 32 * a + 4 * b + 1
    ensures Overrides(Cpu.CmosCycles(op), CyclesByBits(NMOS, a, b, 1), CyclesByBits(CMOS, a, b, 1))
  {
  }

  lemma CmosCycles2(a: nat, b: nat, op: uint8)
    requires a < 8 && b < 8 && op == 32 * a + 4 * b + 2
    ensures Overrides(Cpu.CmosCycles(op), CyclesByBits(NMOS, a, b, 2), CyclesByBits(CMOS, a, b, 2))
  {
  }

  lemma CmosCycles3(a: nat, b: nat, op: uint8)
    requires a < 8 && b < 8 && op == 32 * a + 4 * b + 3
    ensures Overrides(Cpu.CmosCycles(op), CyclesByBits(NMOS, a, b, 3), CyclesByBits(CMOS, a, b, 3))
  {
  }

  lemma CmosHandlerAt(a: nat, b: nat, c: nat, op: uint8)
    requires a < 8 && b < 8 && c < 4 && op == 32 * a + 4 * b + c
    ensures Handlers.CmosHandler(op) == HandlerByBits(CMOS, a, b, c)
  {
    hide Handlers.CmosHandler, HandlerByBits;
    match a
    case 0 => HandlersRow0(b, c, op);
    case 1 => HandlersRow1(b, c, op);
    case 2 => HandlersRow2(b, c, op);
    case 3 => HandlersRow3(b, c, op);
    case 4 => HandlersRow4(b, c, op);
    case 5 => HandlersRow5(b, c, op);
    case 6 => HandlersRow6(b, c, op);
    case _ => HandlersRow7(b, c, op);
  }

  lemma TableModeAt(a: nat, b: nat, c: nat, op: uint8)
    requires a < 8 && b < 8 && c < 4 && op == 32 * a + 4 * b + c
    ensures InstructionTable.TableMode(op) == TableByBits(a, b, c)
  {
    hide InstructionTable.TableMode, TableByBits;
    match a
    case 0 => ModesRow0(b, c, op);
    case 1 => ModesRow1(b, c, op);
    case 2 => ModesRow2(b, c, op);
    case 3 => ModesRow3(b, c, op);
    case 4 => ModesRow4(b, c, op);
    case 5 => ModesRow5(b, c, op);
    case 6 => ModesRow6(b, c, op);
    case _ => ModesRow7(b, c, op);
  }

  lemma NmosCyclesAt(a: nat, b: nat, c: nat, op: uint8)
    requires a < 8 && b < 8 && c < 4 && op == 32 * a + 4 * b + c
    ensures Cpu.CycleBase(op) == CyclesByBits(NMOS, a, b, c)
  {
    hide Cpu.CycleBase, CyclesByBits;
    match a
    case 0 => CyclesRow0(b, c, op);
    case 1 => CyclesRow1(b, c, op);
    case 2 => CyclesRow2(b, c, op);
    case 3 => CyclesRow3(b, c, op);
    case 4 => CyclesRow4(b, c, op);
    case 5 => CyclesRow5(b, c, op);
    case 6 => CyclesRow6(b, c, op);
    case _ => CyclesRow7(b, c, op);
  }

  lemma NmosHandlerAt(a: nat, b: nat, c: nat, op: uint8)
    requires a < 8 && b < 8 && c < 4 && op == 32 * a + 4 * b + c
    ensures Overrides(Handlers.NmosOverride(op), HandlerByBits(CMOS, a, b, c), HandlerByBits(NMOS, a, b, c))
  {
    hide Handlers.NmosOverride, HandlerByBits;
    match c
    case 0 => NmosHandlers0(a, b, op);
    case 1 => NmosHandlers1(a, b, op);
    case 2 => NmosHandlers2(a, b, op);
    case _ => NmosHandlers3(a, b, op);
  }

  lemma NmosModeAt(a: nat, b: nat, c: nat, op: uint8)
    requires a < 8 && b < 8 && c < 4 && op == 32 * a + 4 * b + c
    ensures Overrides(Cpu.NmosMode(op), TableByBits(a, b, c), ModeByBits(NMOS, a, b, c))
  {
    hide Cpu.NmosMode, TableByBits, ModeByBits;
    match c
    case 0 => NmosModes0(a, b, op);
    case 1 => NmosModes1(a, b, op);
    case 2 => NmosModes2(a, b, op);
    case _ => NmosModes3(a, b, op);
  }

  lemma CmosCyclesAt(a: nat, b: nat, c: nat, op: uint8)
    requires a < 8 && b < 8 && c < 4 && op == 32 * a + 4 * b + c
    ensures Overrides(Cpu.CmosCycles(op), CyclesByBits(NMOS, a, b, c), CyclesByBits(CMOS, a, b, c))
  {
    hide Cpu.CmosCycles, CyclesByBits;
    match c
    case 0 => CmosCycles0(a, b, op);
    case 1 => CmosCycles1(a, b, op);
    case 2 => CmosCycles2(a, b, op);
    case _ => CmosCycles3(a, b, op);
  }

  lemma Bits(op: uint8)
    ensures var a, b, c := op / 32, op / 4 % 8, op % 4; a < 8 && b < 8 && c < 4 && op == 32 * a + 4 * b + c
  {
  }

  /** Every opcode dispatches the handler its bits say, on both variants. */
  lemma HandlerDecoded(variant: Variant, op: uint8)
    ensures Handlers.HandlerOf(variant, op) == HandlerByBits(variant, op / 32, op / 4 % 8, op % 4)
  {
    hide Handlers.CmosHandler, Handlers.NmosOverride, HandlerByBits;
    Bits(op);
    CmosHandlerAt(op / 32, op / 4 % 8, op % 4, op);
    NmosHandlerAt(op / 32, op / 4 % 8, op % 4, op);
  }

  /** Every opcode has the addressing mode its bits say, on both variants. */
  lemma ModeDecoded(variant: Variant, op: uint8)
    ensures Cpu.ModeOf(variant, op) == ModeByBits(variant, op / 32, op / 4 % 8, op % 4)
  {
    hide InstructionTable.TableMode, Cpu.NmosMode, Cpu.CmosMode, TableByBits, ModeByBits;
    Bits(op);
    TableModeAt(op / 32, op / 4 % 8, op % 4, op);
    NmosModeAt(op / 32, op / 4 % 8, op % 4, op);
    CmosModesAt(op / 32, op / 4 % 8, op % 4, op);
  }

  /** Every opcode is charged the base cycles its handler and mode say, on both variants. */
  lemma CyclesDecoded(variant: Variant, op: uint8)
    ensures Cpu.CyclesOf(variant, op) == CyclesByBits(variant, op / 32, op / 4 % 8, op % 4)
  {
    hide Cpu.CycleBase, Cpu.CmosCycles, CyclesByBits;
    Bits(op);
    NmosCyclesAt(op / 32, op / 4 % 8, op % 4, op);
    CmosCyclesAt(op / 32, op / 4 % 8, op % 4, op);
  }

  /** The accumulator instructions: which one by the top three bits, its mode by the middle three. */
  lemma AccumulatorGroup(variant: Variant, op: uint8)
    requires op % 4 == 1 && op != 0x89
    ensures Handlers.HandlerOf(variant, op) == ACCUMULATOR_ROWS[op / 32]
    ensures Cpu.ModeOf(variant, op) == ACCUMULATOR_MODES[op / 4 % 8]
  {
    hide Handlers.HandlerOf, Cpu.ModeOf;
    Bits(op);
    HandlerDecoded(variant, op);
    ModeDecoded(variant, op);
  }

  /** The shift group: shifts, X with memory and counting, in its four addressed columns. */
  lemma ShiftGroup(variant: Variant, op: uint8)
    requires op % 4 == 2 && op / 4 % 8 % 2 == 1 && op != 0x9E
    ensures Handlers.HandlerOf(variant, op) == SHIFT_ROWS[op / 32]
    ensures var byY := op / 32 == 4 || op / 32 == 5;
            Cpu.ModeOf(variant, op) ==
            match op / 4 % 8 { case 1 => Zp case 3 => Abs case 5 => if byY then ZpY else ZpX case _ => if byY then AbsY else AbsX }
  {
    hide Handlers.HandlerOf, Cpu.ModeOf;
    Bits(op);
    HandlerDecoded(variant, op);
    ModeDecoded(variant, op);
  }

  /** The flag a conditional branch looks at, by the top two bits: N, V, C, Z. */
  function TestedFlag(p: Status, op: uint8): bool {
    [p.n, p.v, p.c, p.z][op / 64]
  }

  /** The conditional branches: taken iff the flag of the top two bits equals bit 5. */
  lemma BranchGroup(variant: Variant, op: uint8, p: Status, tested: uint8, mask: uint8)
    requires op % 32 == 0x10
    ensures Cpu.ModeOf(variant, op) == Rel
    ensures var h := Handlers.HandlerOf(variant, op);
            h.Bra? && (Taken(h.branch, p, tested, mask) <==> TestedFlag(p, op) == (op / 32 % 2 == 1))
  {
    hide Handlers.HandlerOf, Cpu.ModeOf;
    Bits(op);
    HandlerDecoded(variant, op);
    ModeDecoded(variant, op);
  }
}
