/** One CPU step: poll, fetch, cycle charge, addressing, dispatch, cycle adjustment. */
module Cpu {
  import opened Types
  import opened StatusRegister
  import opened InterruptController
  import opened MachineState
  import opened Addressing
  import opened Instructions
  import InstructionTable
  import Interrupts
  import Handlers
  import Bus

  const RESET_STACK_POINTER: uint8 := 0xFD
  const RESET_STATUS: uint8 := 0x24
  const RESET_VECTOR: uint16 := 0xFFFC

  function CycleBase(op: uint8): nat {
    if op < 0x20 then CycleRow0(op)
    else if op < 0x40 then CycleRow1(op)
    else if op < 0x60 then CycleRow2(op)
    else if op < 0x80 then CycleRow3(op)
    else if op < 0xA0 then CycleRow4(op)
    else if op < 0xC0 then CycleRow5(op)
    else if op < 0xE0 then CycleRow6(op)
    else CycleRow7(op)
  }

  function CycleRow0(op: uint8): nat {
    match op
    case 0x00 => 7 case 0x01 => 6 case 0x02 => 0 case 0x03 => 8 case 0x04 => 3 case 0x05 => 3 case 0x06 => 5 case 0x07 => 5
    case 0x08 => 3 case 0x09 => 2 case 0x0A => 2 case 0x0B => 2 case 0x0C => 4 case 0x0D => 4 case 0x0E => 6 case 0x0F => 6
    case 0x10 => 2 case 0x11 => 5 case 0x12 => 5 case 0x13 => 8 case 0x14 => 4 case 0x15 => 4 case 0x16 => 6 case 0x17 => 6
    case 0x18 => 2 case 0x19 => 4 case 0x1A => 2 case 0x1B => 7 case 0x1C => 4 case 0x1D => 4 case 0x1E => 7 case _ => 7
  }

  function CycleRow1(op: uint8): nat {
    match op
    case 0x20 => 6 case 0x21 => 6 case 0x22 => 0 case 0x23 => 8 case 0x24 => 3 case 0x25 => 3 case 0x26 => 5 case 0x27 => 5
    case 0x28 => 4 case 0x29 => 2 case 0x2A => 2 case 0x2B => 2 case 0x2C => 4 case 0x2D => 4 case 0x2E => 6 case 0x2F => 6
    case 0x30 => 2 case 0x31 => 5 case 0x32 => 5 case 0x33 => 8 case 0x34 => 4 case 0x35 => 4 case 0x36 => 6 case 0x37 => 6
    case 0x38 => 2 case 0x39 => 4 case 0x3A => 2 case 0x3B => 7 case 0x3C => 4 case 0x3D => 4 case 0x3E => 7 case _ => 7
  }

  function CycleRow2(op: uint8): nat {
    match op
    case 0x40 => 6 case 0x41 => 6 case 0x42 => 0 case 0x43 => 8 case 0x44 => 3 case 0x45 => 3 case 0x46 => 5 case 0x47 => 5
    case 0x48 => 3 case 0x49 => 2 case 0x4A => 2 case 0x4B => 2 case 0x4C => 3 case 0x4D => 4 case 0x4E => 6 case 0x4F => 6
    case 0x50 => 2 case 0x51 => 5 case 0x52 => 5 case 0x53 => 8 case 0x54 => 4 case 0x55 => 4 case 0x56 => 6 case 0x57 => 6
    case 0x58 => 2 case 0x59 => 4 case 0x5A => 2 case 0x5B => 7 case 0x5C => 4 case 0x5D => 4 case 0x5E => 7 case _ => 7
  }

  function CycleRow3(op: uint8): nat {
    match op
    case 0x60 => 6 case 0x61 => 6 case 0x62 => 0 case 0x63 => 8 case 0x64 => 3 case 0x65 => 3 case 0x66 => 5 case 0x67 => 5
    case 0x68 => 4 case 0x69 => 2 case 0x6A => 2 case 0x6B => 2 case 0x6C => 5 case 0x6D => 4 case 0x6E => 6 case 0x6F => 6
    case 0x70 => 2 case 0x71 => 5 case 0x72 => 5 case 0x73 => 8 case 0x74 => 4 case 0x75 => 4 case 0x76 => 6 case 0x77 => 6
    case 0x78 => 2 case 0x79 => 4 case 0x7A => 2 case 0x7B => 7 case 0x7C => 6 case 0x7D => 4 case 0x7E => 7 case _ => 7
  }

  function CycleRow4(op: uint8): nat {
    match op
    case 0x80 => 2 case 0x81 => 6 case 0x82 => 2 case 0x83 => 6 case 0x84 => 3 case 0x85 => 3 case 0x86 => 3 case 0x87 => 3
    case 0x88 => 2 case 0x89 => 2 case 0x8A => 2 case 0x8B => 2 case 0x8C => 4 case 0x8D => 4 case 0x8E => 4 case 0x8F => 4
    case 0x90 => 2 case 0x91 => 6 case 0x92 => 5 case 0x93 => 6 case 0x94 => 4 case 0x95 => 4 case 0x96 => 4 case 0x97 => 4
    case 0x98 => 2 case 0x99 => 5 case 0x9A => 2 case 0x9B => 5 case 0x9C => 5 case 0x9D => 5 case 0x9E => 5 case _ => 5
  }

  function CycleRow5(op: uint8): nat {
    match op
    case 0xA0 => 2 case 0xA1 => 6 case 0xA2 => 2 case 0xA3 => 6 case 0xA4 => 3 case 0xA5 => 3 case 0xA6 => 3 case 0xA7 => 3
    case 0xA8 => 2 case 0xA9 => 2 case 0xAA => 2 case 0xAB => 2 case 0xAC => 4 case 0xAD => 4 case 0xAE => 4 case 0xAF => 4
    case 0xB0 => 2 case 0xB1 => 5 case 0xB2 => 5 case 0xB3 => 5 case 0xB4 => 4 case 0xB5 => 4 case 0xB6 => 4 case 0xB7 => 4
    case 0xB8 => 2 case 0xB9 => 4 case 0xBA => 2 case 0xBB => 4 case 0xBC => 4 case 0xBD => 4 case 0xBE => 4 case _ => 4
  }

  function CycleRow6(op: uint8): nat {
    match op
    case 0xC0 => 2 case 0xC1 => 6 case 0xC2 => 2 case 0xC3 => 8 case 0xC4 => 3 case 0xC5 => 3 case 0xC6 => 5 case 0xC7 => 5
    case 0xC8 => 2 case 0xC9 => 2 case 0xCA => 2 case 0xCB => 2 case 0xCC => 4 case 0xCD => 4 case 0xCE => 6 case 0xCF => 6
    case 0xD0 => 2 case 0xD1 => 5 case 0xD2 => 5 case 0xD3 => 8 case 0xD4 => 4 case 0xD5 => 4 case 0xD6 => 6 case 0xD7 => 6
    case 0xD8 => 2 case 0xD9 => 4 case 0xDA => 2 case 0xDB => 7 case 0xDC => 4 case 0xDD => 4 case 0xDE => 7 case _ => 7
  }

  function CycleRow7(op: uint8): nat {
    match op
    case 0xE0 => 2 case 0xE1 => 6 case 0xE2 => 2 case 0xE3 => 8 case 0xE4 => 3 case 0xE5 => 3 case 0xE6 => 5 case 0xE7 => 5
    case 0xE8 => 2 case 0xE9 => 2 case 0xEA => 2 case 0xEB => 2 case 0xEC => 4 case 0xED => 4 case 0xEE => 6 case 0xEF => 6
    case 0xF0 => 2 case 0xF1 => 5 case 0xF2 => 5 case 0xF3 => 8 case 0xF4 => 4 case 0xF5 => 4 case 0xF6 => 6 case 0xF7 => 6
    case 0xF8 => 2 case 0xF9 => 4 case 0xFA => 2 case 0xFB => 7 case 0xFC => 4 case 0xFD => 4 case 0xFE => 7 case _ => 7
  }

  /** Cycle counts that replace the base count on CMOS. */
  function CmosCycles(op: uint8): Option<nat>
  {
    match op
    case 0x02 | 0x22 | 0x42 | 0x62 => Some(2)
    case 0x5A | 0xCB | 0xDA | 0xDB => Some(3)
    case 0x7A | 0x9C | 0xFA => Some(4)
    case 0x04 | 0x0F | 0x14 | 0x1F | 0x2F | 0x3F | 0x4F | 0x5F |
         0x6F | 0x7F | 0x8F | 0x9F | 0xAF | 0xBF | 0xCF | 0xDC |
         0xDF | 0xEF | 0xFC | 0xFF => Some(5)
    case 0x0C | 0x1C => Some(6)
    case _ => None
  }

  /** Indexed writes whose base count already covers the page crossing. */
  predicate SuppressesPageCross(op: uint8) {
    op in {0x9D, 0x99, 0x9E, 0x91, 0x1E, 0x5E, 0x3E, 0x7E, 0xFE, 0xDE}
  }

  function NmosMode(op: uint8): Option<Mode>
  {
    match op
    case 0x03 | 0x23 | 0x43 | 0x63 | 0x83 | 0xA3 | 0xC3 | 0xE3 => Some(IndX)
    case 0x13 | 0x33 | 0x53 | 0x73 | 0xB3 | 0xD3 | 0xF3 => Some(IndY)
    case 0x93 | 0x1B | 0x3B | 0x5B | 0x7B | 0xDB | 0xFB | 0x9F |
         0xBF => Some(AbsY)
    case 0x07 | 0x27 | 0x47 | 0x67 | 0x87 | 0xA7 | 0xC7 | 0xE7 => Some(Zp)
    case 0x17 | 0x37 | 0x57 | 0x77 | 0xD7 | 0xF7 | 0x14 | 0x34 |
         0x54 | 0x74 | 0xD4 | 0xF4 => Some(ZpX)
    case 0x97 | 0xB7 => Some(ZpY)
    case 0x0B | 0x2B | 0x4B | 0x6B | 0xEB | 0x82 | 0xC2 | 0xE2 => Some(Imm)
    case 0x0F | 0x2F | 0x4F | 0x6F | 0x8F | 0xAF | 0xCF | 0xEF => Some(Abs)
    case 0x1F | 0x3F | 0x5F | 0x7F | 0xDF | 0xFF | 0x1C | 0x3C |
         0x5C | 0x7C | 0xDC | 0xFC => Some(AbsX)
    case _ => None
  }

  function CmosMode(op: uint8): Option<Mode>
  {
    match op
    case 0x0B | 0x1B | 0x2B | 0x3B | 0x4B | 0x5B | 0x6B | 0x7B |
         0x8B | 0x9B | 0xAB | 0xBB | 0xEB | 0xFB => Some(Implied)
    case _ => None
  }

  function ModeOverride(variant: Variant, op: uint8): Option<Mode> {
    if variant == NMOS then NmosMode(op) else CmosMode(op)
  }

  function ModeOf(variant: Variant, op: uint8): Mode {
    var ov := ModeOverride(variant, op);
    if ov.Some? then ov.value else InstructionTable.TableMode(op)
  }

  function CyclesOf(variant: Variant, op: uint8): nat {
    if variant == CMOS && CmosCycles(op).Some? then CmosCycles(op).value else CycleBase(op)
  }

  function NextOpcode(m: Machine): uint8 {
    Bus.Read(m.bus, m.r.pc)
  }

  /** The handler and mode the machine dispatches next if nothing interrupts it. */
  function NextHandler(m: Machine): Handler {
    Handlers.HandlerOf(m.variant, NextOpcode(m))
  }

  function NextMode(m: Machine): Mode {
    ModeOf(m.variant, NextOpcode(m))
  }

  function Fetch(m: Machine): Machine {
    var op := NextOpcode(m);
    WithCycles(WithPc(m, m.r.pc + 1).(latch := m.latch.(opcode := op)), CyclesOf(m.variant, op))
  }

  function Decode(mode: Mode, m: Machine): Machine {
    var resolved := Resolve(mode, m);
    resolved.(latch := resolved.latch.(branchTaken := false, branchPageCross := false))
  }

  /** Cycles an instruction costs beyond its base count. */
  function Penalty(l: Latch): nat {
    (if l.pageCross && !SuppressesPageCross(l.opcode) then 1 else 0) +
    (if l.branchTaken then 1 else 0) +
    (if l.branchPageCross then 1 else 0)
  }

  function Adjust(m: Machine): Machine {
    WithCycles(m, Penalty(m.latch))
  }

  function Instruction(m: Machine): Machine {
    Adjust(Exec(NextHandler(m), Decode(NextMode(m), Fetch(m))))
  }

  function Polled(m: Machine): Machine {
    m.(ic := Ticked(m.ic))
  }

  /** The interrupt the next step services, if any. */
  function Due(m: Machine): InterruptType {
    Pending(m.ic, m.r.p.i)
  }

  predicate Dispatches(m: Machine) {
    Due(m) == NoInterrupt && !m.stopped && !m.waiting
  }

  function Step(m: Machine): Machine {
    if Due(m) != NoInterrupt then Interrupts.Service(Polled(m), Due(m))
    else if m.stopped || m.waiting then Polled(m)
    else Instruction(Polled(m))
  }

  function Reset(m: Machine): Machine {
    WithCycles(m.(r := Registers(Bus.Read16(m.bus, RESET_VECTOR), 0, 0, 0, RESET_STACK_POINTER, Unpack(RESET_STATUS)),
                  waiting := false, stopped := false), 7)
  }
}
