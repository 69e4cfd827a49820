/** What one step does, case by case: interrupt service, idle poll, dispatched instruction. */
module StepEffects {
  import opened Types
  import opened StatusRegister
  import opened InterruptController
  import opened MachineState
  import opened Stack
  import opened Instructions
  import opened Addressing
  import opened Cpu
  import opened Frame
  import Interrupts
  import Bus

  /** No interrupt sequence is under way. */
  predicate Quiet(c: Controller) {
    !c.inProgress && c.current == NoInterrupt && c.sequenceCycle == 0
  }

  /** The controller after a service: the event recorded, the sequence over, a served NMI forgotten. */
  function Served(c: Controller, kind: InterruptType, pc: uint16, p: uint8): Controller {
    var done := Interrupts.EndSequence(Record(c, kind, pc, p));
    done.(nmiPending := c.nmiPending && kind != Nmi)
  }

  lemma PushFrameWrites(m: Machine, kind: InterruptType)
    ensures Bus.AgreeOutside(m.bus, Interrupts.PushFrame(m, kind).bus, SlotsBelow(m.r.s, 3))
  {
    hide Pack;
    var address, status := Interrupts.ReturnAddress(kind, m.r.pc), Interrupts.PushedStatus(kind, m.r.p);
    var m2 := Push16(m, address);
    Push16Writes(m, address);
    Bus.WriteAgrees(m2.bus, Slot(m2.r.s), status);
    Bus.AgreeTransitive(m.bus, m2.bus, Push8(m2, status).bus, SlotsBelow(m.r.s, 2), {Slot(m2.r.s)});
    var s1, s2 := Low8(m.r.s - 1), Low8(Low8(m.r.s - 1) - 1);
    assert m2.r.s == s2;
    assert SlotsBelow(s2, 1) == {Slot(s2)};
    assert SlotsBelow(s1, 2) == {Slot(s1)} + SlotsBelow(s2, 1);
    assert SlotsBelow(s1, 1) == {Slot(s1)};
    assert SlotsBelow(m.r.s, 3) == {Slot(m.r.s)} + SlotsBelow(s1, 2) == SlotsBelow(m.r.s, 2) + {Slot(s2)};
  }

  lemma BeginEffect(m: Machine, kind: InterruptType)
    ensures var b := Interrupts.Begin(m, kind);
            && b == m.(ic := b.ic)
            && b.ic.inProgress && b.ic.sequenceCycle == 0 && b.ic.current == kind
            && b.ic.nmiPending == m.ic.nmiPending
            && Interrupts.EndSequence(b.ic) == Interrupts.EndSequence(Record(m.ic, kind, m.r.pc, Pack(m.r.p)))
  {
  }

  /** The pushes depend on registers and bus alone and change nothing else. */
  lemma PushFrameEffect(m: Machine, b: Machine, kind: InterruptType)
    requires m.r == b.r && m.bus == b.bus
    ensures var t := Interrupts.PushFrame(b, kind);
            && t.bus == Interrupts.PushFrame(m, kind).bus
            && t == b.(bus := t.bus, r := m.r.(s := Low8(m.r.s - 3)))
  {
    hide Bus.Write, Pack;
  }

  /** One cycle of a freshly begun sequence. */
  lemma SequenceEffect(b: Machine, kind: InterruptType)
    requires b.ic.inProgress && b.ic.sequenceCycle == 0 && b.ic.current == kind != NoInterrupt
    ensures var t := Interrupts.StepCycle(b);
            && t.bus == Interrupts.PushFrame(b, kind).bus
            && t == b.(waiting := false, cycles := Low32(b.cycles + if kind == Brk then 0 else 7), bus := t.bus,
                       ic := Interrupts.EndSequence(b.ic).(nmiPending := b.ic.nmiPending && kind != Nmi),
                       r := b.r.(s := Low8(b.r.s - 3), p := Interrupts.StatusOnEntry(b.variant, b.r.p),
                                 pc := Bus.Read16(t.bus, Interrupts.Vector(kind))))
  {
    hide Interrupts.PushFrame, Bus.Read16;
    PushFrameEffect(b, if kind == Brk then b else WithCycles(b, 7), kind);
  }

  /** `t` is `m` after a complete service of the given kind. */
  ghost predicate Serviced(m: Machine, kind: InterruptType, t: Machine) {
    && t.variant == m.variant && t.stopped == m.stopped && !t.waiting && t.latch == m.latch
    && t.cycles == Low32(m.cycles + if kind == Brk then 0 else 7)
    && t.ic == Served(m.ic, kind, m.r.pc, Pack(m.r.p))
    && t.bus == Interrupts.PushFrame(m, kind).bus
    && t.r == m.r.(s := Low8(m.r.s - 3), p := Interrupts.StatusOnEntry(m.variant, m.r.p),
                   pc := Bus.Read16(t.bus, Interrupts.Vector(kind)))
    && Bus.AgreeOutside(m.bus, t.bus, SlotsBelow(m.r.s, 3))
  }

  lemma ServiceEffect(m: Machine, kind: InterruptType)
    requires kind != NoInterrupt
    ensures Serviced(m, kind, Interrupts.Service(m, kind))
  {
    hide Interrupts.PushFrame, Bus.Read16, Record, Interrupts.StepCycle, Interrupts.Begin;
    var b := Interrupts.Begin(m, kind);
    BeginEffect(m, kind);
    SequenceEffect(b, kind);
    PushFrameEffect(m, b, kind);
    PushFrameWrites(m, kind);
  }

  /** The machine as the handler of the next instruction finds it. */
  function Decoded(m: Machine): Machine {
    Decode(NextMode(m), Fetch(Polled(m)))
  }

  function Executed(m: Machine): Machine {
    Exec(NextHandler(m), Decoded(m))
  }

  lemma DecodeEffect(mode: Mode, m: Machine)
    ensures var d := Decode(mode, Fetch(m));
            && d.r == m.r.(pc := Low16(m.r.pc + 1 + OperandBytes(mode)))
            && d.variant == m.variant && d.bus == m.bus && d.ic == m.ic
            && d.waiting == m.waiting && d.stopped == m.stopped
            && d.cycles == Low32(m.cycles + CyclesOf(m.variant, NextOpcode(m)))
            && d.latch.opcode == NextOpcode(m) && d.latch.hasEa == HasEa(mode)
            && !d.latch.branchTaken && !d.latch.branchPageCross
            && (d.latch.pageCross ==> mode.AbsX? || mode.AbsY? || mode.IndY?)
  {
    hide EffectiveAddress, CyclesOf, RelOffset, Operand16, ZeroPagePointer, SamePage;
  }

  lemma StepService(m: Machine)
    requires Due(m) != NoInterrupt
    ensures Serviced(Polled(m), Due(m), Step(m))
  {
    ServiceEffect(Polled(m), Due(m));
  }

  lemma StepIdle(m: Machine)
    requires Due(m) == NoInterrupt && !Dispatches(m)
    ensures Step(m) == Polled(m)
  {
  }

  lemma StepBrk(m: Machine)
    requires Dispatches(m) && NextHandler(m) == BRK
    ensures Serviced(Decoded(m), Brk, Executed(m)) && Step(m) == Adjust(Executed(m))
  {
    ServiceEffect(Decoded(m), Brk);
  }

  lemma StepDispatch(m: Machine)
    requires Dispatches(m) && NextHandler(m) != BRK
    ensures Framed(NextHandler(m), Decoded(m), Executed(m)) && Step(m) == Adjust(Executed(m))
  {
    DecodeEffect(NextMode(m), Polled(m));
    ExecFramed(NextHandler(m), Decoded(m));
  }

  /** The service a step performs, whether polled or asked for by a BRK opcode. */
  function ServiceOf(m: Machine): InterruptType {
    if Due(m) != NoInterrupt then Due(m)
    else if Dispatches(m) && NextHandler(m) == BRK then Brk
    else NoInterrupt
  }

  /** PC as the service finds it: BRK has been fetched by then. */
  function ServicePc(m: Machine): uint16 {
    if ServiceOf(m) == Brk then Decoded(m).r.pc else m.r.pc
  }

  lemma StepController(m: Machine)
    ensures Step(m).ic == if ServiceOf(m) == NoInterrupt then Ticked(m.ic)
                          else Served(Ticked(m.ic), ServiceOf(m), ServicePc(m), Pack(m.r.p))
  {
    hide Step, NextHandler, NextMode;
    if Due(m) != NoInterrupt {
      StepService(m);
    } else if Dispatches(m) {
      DecodeEffect(NextMode(m), Polled(m));
      if NextHandler(m) == BRK {
        StepBrk(m);
      } else {
        StepDispatch(m);
      }
    } else {
      StepIdle(m);
    }
  }

  lemma StepVariant(m: Machine)
    ensures Step(m).variant == m.variant
  {
    hide Step, NextHandler, NextMode, Exec, Decode, Fetch, Interrupts.PushFrame, Record, Bus.AgreeOutside;
    if Due(m) != NoInterrupt {
      StepService(m);
    } else if Dispatches(m) {
      DecodeEffect(NextMode(m), Polled(m));
      if NextHandler(m) == BRK {
        StepBrk(m);
      } else {
        StepDispatch(m);
      }
    } else {
      StepIdle(m);
    }
  }

  lemma ResetStatus()
    ensures Unpack(RESET_STATUS) == Status(false, false, true, false, false, true, false, false)
  {
  }

  lemma DispatchFlags(m: Machine)
    requires Dispatches(m) && NextHandler(m) != BRK
    ensures KeepsFlags(NextHandler(m), m.r.p, Step(m).r.p)
  {
    hide Step, NextHandler, NextMode;
    DecodeEffect(NextMode(m), Polled(m));
    StepDispatch(m);
  }

  lemma ServiceFlags(m: Machine)
    requires ServiceOf(m) != NoInterrupt
    ensures Step(m).r.p == Interrupts.StatusOnEntry(m.variant, m.r.p)
  {
    hide Step, NextHandler, NextMode;
    if Due(m) != NoInterrupt {
      StepService(m);
    } else {
      DecodeEffect(NextMode(m), Polled(m));
      StepBrk(m);
    }
  }

  /** B never appears in the live P; I is set by every service and cleared only by CLI, PLP or RTI. */
  lemma StepFlags(m: Machine)
    ensures !m.r.p.b ==> !Step(m).r.p.b
    ensures ServiceOf(m) != NoInterrupt ==> Step(m).r.p.i
    ensures m.r.p.i && !Step(m).r.p.i ==> Dispatches(m) && MayUnmask(NextHandler(m))
  {
    hide Step, NextHandler;
    if ServiceOf(m) != NoInterrupt {
      ServiceFlags(m);
    } else if Dispatches(m) {
      DispatchFlags(m);
    } else {
      StepIdle(m);
    }
  }

  lemma TxsMovesX(m: Machine)
    requires Dispatches(m) && NextHandler(m) == Reg(TXS)
    ensures Step(m).r.s == m.r.x
  {
    hide Step, NextHandler, NextMode, Decode, Fetch, Bus.AgreeOutside;
    DecodeEffect(NextMode(m), Polled(m));
    StepDispatch(m);
  }

  lemma StackOfDispatch(m: Machine)
    requires Dispatches(m) && NextHandler(m) != Reg(TXS)
    ensures Step(m).r.s == Low8(m.r.s - PushCount(NextHandler(m)) + PullCount(NextHandler(m)))
  {
    hide Low8, Low16, Low32, Step, NextHandler, NextMode, Exec, Decode, Fetch, CyclesOf, Penalty, JumpCycle, KeepsControl,
         KeepsFlags, Written, Halts, SlotsBelow, Interrupts.PushFrame, Interrupts.StatusOnEntry, Record, Pack, Bus.AgreeOutside;
    DecodeEffect(NextMode(m), Polled(m));
    if NextHandler(m) == BRK {
      StepBrk(m);
      Low8Plus0(m.r.s - 3);
    } else {
      StepDispatch(m);
    }
  }

  lemma Low8Plus0(x: int)
    ensures Low8(x + 0) == Low8(x)
  {
  }

  /** S moves by the bytes pushed and pulled, or to X. */
  lemma StepStackPointer(m: Machine)
    ensures Step(m).r.s ==
            if ServiceOf(m) != NoInterrupt then Low8(m.r.s - 3)
            else if !Dispatches(m) then m.r.s
            else if NextHandler(m) == Reg(TXS) then m.r.x
            else Low8(m.r.s - PushCount(NextHandler(m)) + PullCount(NextHandler(m)))
  {
    hide Low8, Step, NextHandler, NextMode, Interrupts.PushFrame, Record, Bus.AgreeOutside;
    if Due(m) != NoInterrupt {
      StepService(m);
    } else if !Dispatches(m) {
      StepIdle(m);
    } else if NextHandler(m) == Reg(TXS) {
      TxsMovesX(m);
    } else {
      StackOfDispatch(m);
    }
  }
}
