/** One dispatched step, seen from its handler: where the operand comes from and what of the machine it changes. */
module StepMeaning {
  import opened Types
  import opened MachineState
  import opened Addressing
  import opened Instructions
  import opened Cpu
  import opened StepEffects
  import Handlers
  import Bus

  /** The next step dispatches the given handler. */
  predicate Runs(m: Machine, h: Handler) {
    Dispatches(m) && NextHandler(m) == h
  }

  /** Address of the next instruction in memory. */
  function Following(m: Machine): uint16 {
    Low16(m.r.pc + 1 + OperandBytes(NextMode(m)))
  }

  /** The address the next instruction works on, if it has one. */
  function Address(m: Machine): uint16 {
    EffectiveAddress(NextMode(m), Fetch(Polled(m)))
  }

  predicate Addressed(m: Machine) {
    HasEa(NextMode(m))
  }

  /** Indexing takes the address into another page. */
  predicate Crosses(m: Machine) {
    CrossesPage(NextMode(m), Fetch(Polled(m)))
  }

  /** The byte the next instruction reads. */
  function Operand(m: Machine): uint8 {
    if Addressed(m) then Bus.Read(m.bus, Address(m)) else LowByte(Address(m))
  }

  lemma FetchedState(m: Machine)
    ensures var d := Decoded(m);
            && d.r == m.r.(pc := Following(m)) && d.bus == m.bus && d.variant == m.variant
            && d.latch.ea == Address(m) && d.latch.hasEa == Addressed(m) && d.latch.opcode == NextOpcode(m)
            && d.latch.pageCross == Crosses(m) && Data(d) == Operand(m)
  {
    hide NextHandler, NextMode, EffectiveAddress, CyclesOf, Bus.Read, CrossesPage, RelOffset;
    DecodeEffect(NextMode(m), Polled(m));
    DecodedAddress(NextMode(m), Fetch(Polled(m)));
  }

  lemma DecodedAddress(mode: Mode, m: Machine)
    ensures Decode(mode, m).latch.ea == EffectiveAddress(mode, m)
    ensures Decode(mode, m).latch.pageCross == CrossesPage(mode, m)
  {
    hide EffectiveAddress, CrossesPage, RelOffset;
  }

  /** A dispatched step is its handler on the decoded machine; only the cycle counter is adjusted afterwards. */
  lemma StepIsHandler(m: Machine)
    requires Dispatches(m)
    ensures var t := Exec(NextHandler(m), Decoded(m)); Step(m) == t.(cycles := Step(m).cycles)
  {
    hide Handlers.HandlerOf, ModeOf, Exec, Decode, Fetch, Low32, Penalty, Bus.Read;
  }
}
