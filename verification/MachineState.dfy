/** The whole machine as one value: registers, cycle counter, per-instruction globals, bus, interrupts. */
module MachineState {
  import opened Types
  import opened StatusRegister
  import opened InterruptController
  import Bus

  datatype Variant = NMOS | CMOS

  datatype Registers = Registers(pc: uint16, a: uint8, x: uint8, y: uint8, s: uint8, p: Status)

  /** Globals that every instruction sets before its handler runs. */
  datatype Latch = Latch(opcode: uint8, ea: uint16, hasEa: bool, pageCross: bool,
                         branchTaken: bool, branchPageCross: bool, relOffset: int8)

  datatype Machine = Machine(variant: Variant, r: Registers, cycles: uint32, waiting: bool, stopped: bool,
                             latch: Latch, bus: Bus.Space, ic: Controller)

  function WithP(m: Machine, p: Status): Machine {
    m.(r := m.r.(p := p))
  }

  function WithPc(m: Machine, pc: int): Machine {
    m.(r := m.r.(pc := Low16(pc)))
  }

  function WithCycles(m: Machine, added: nat): Machine {
    m.(cycles := Low32(m.cycles + added))
  }

  /** Operand of a read instruction: through EA, or the immediate byte that addressing left in EA. */
  function Data(m: Machine): uint8 {
    if m.latch.hasEa then Bus.Read(m.bus, m.latch.ea) else LowByte(m.latch.ea)
  }
}
