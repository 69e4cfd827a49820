/** Interrupt entry: recording the event, the push sequence and the vector fetch. */
module Interrupts {
  import opened Types
  import opened StatusRegister
  import opened InterruptController
  import opened MachineState
  import opened Stack
  import Bus

  const IRQ_VECTOR: uint16 := 0xFFFE
  const NMI_VECTOR: uint16 := 0xFFFA

  function Begin(m: Machine, kind: InterruptType): Machine {
    var started := m.ic.(inProgress := true, current := kind, sequenceCycle := 0);
    m.(ic := Record(started, kind, m.r.pc, Pack(m.r.p)))
  }

  function EndSequence(c: Controller): Controller {
    c.(inProgress := false, current := NoInterrupt, sequenceCycle := 0)
  }

  /** BRK skips its padding byte. */
  function ReturnAddress(kind: InterruptType, pc: uint16): uint16 {
    if kind == Brk then Low16(pc + 1) else pc
  }

  /** P as an interrupt of the given kind pushes it. */
  function PushedStatus(kind: InterruptType, p: Status): uint8 {
    Pack(p.(b := kind == Brk, u := true))
  }

  function StatusOnEntry(variant: Variant, p: Status): Status {
    if variant == CMOS then p.(i := true, d := false) else p.(i := true)
  }

  function Vector(kind: InterruptType): uint16 {
    if kind == Nmi then NMI_VECTOR else IRQ_VECTOR
  }

  /** Return address, high byte first, then status. */
  function PushFrame(m: Machine, kind: InterruptType): Machine {
    Push8(Push16(m, ReturnAddress(kind, m.r.pc)), PushedStatus(kind, m.r.p))
  }

  /** Pushes, masking, wake-up and vector fetch; a served NMI is forgotten. */
  function Enter(m: Machine, kind: InterruptType): Machine {
    var pushed := PushFrame(if kind == Brk then m else WithCycles(m, 7), kind);
    var masked := WithP(pushed, StatusOnEntry(m.variant, m.r.p));
    WithPc(masked, Bus.Read16(masked.bus, Vector(kind))).(
      waiting := false, ic := m.ic.(nmiPending := m.ic.nmiPending && kind != Nmi))
  }

  function StepCycle(m: Machine): Machine {
    var kind := m.ic.current;
    if !m.ic.inProgress then m
    else
      var t := if m.ic.sequenceCycle != 0 || kind == NoInterrupt then m else Enter(m, kind);
      t.(ic := EndSequence(t.ic))
  }

  function Service(m: Machine, kind: InterruptType): Machine {
    StepCycle(Begin(m, kind))
  }
}
