/** The wrapping stack in page 1. */
module Stack {
  import opened Types
  import opened MachineState
  import Bus

  const STACK_START: uint16 := 0x0100

  function Slot(s: uint8): uint16 {
    STACK_START + s
  }

  function Push8(m: Machine, value: uint8): Machine {
    m.(bus := Bus.Write(m.bus, Slot(m.r.s), value), r := m.r.(s := Low8(m.r.s - 1)))
  }

  /** High byte first. */
  function Push16(m: Machine, value: uint16): Machine {
    Push8(Push8(m, HighByte(value)), LowByte(value))
  }

  /** The byte `count` slots above S, wrapping within page 1. */
  function Above(m: Machine, count: nat): uint8 {
    Bus.Read(m.bus, Slot(Low8(m.r.s + count)))
  }

  function Pop8(m: Machine): (uint8, Machine) {
    (Above(m, 1), m.(r := m.r.(s := Low8(m.r.s + 1))))
  }

  function Pop16(m: Machine): (uint16, Machine) {
    var (low, m1) := Pop8(m);
    var (high, m2) := Pop8(m1);
    (Word(low, high), m2)
  }

  /** Every push lands: page 1 is RAM. */
  ghost predicate StackInRam(bus: Bus.Space) {
    forall s: uint8 :: Bus.Writable(bus, Slot(s))
  }

  lemma StackStaysInRam(bus: Bus.Space, after: Bus.Space, written: set<uint16>)
    requires StackInRam(bus) && Bus.AgreeOutside(bus, after, written)
    ensures StackInRam(after)
  {
  }
}
