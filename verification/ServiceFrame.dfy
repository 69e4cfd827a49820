/** What an interrupt service leaves on the stack and in the machine, said of the bytes. */
module ServiceFrame {
  import opened Types
  import opened StatusRegister
  import opened StatusBits
  import opened InterruptController
  import opened MachineState
  import opened Stack
  import opened Cpu
  import opened StepEffects
  import opened Nesting
  import Instructions
  import OpcodeTables
  import Handlers
  import Interrupts
  import Bus

  /** The byte `k` slots below the S of before the step. */
  function Pushed(before: Machine, after: Machine, k: nat): uint8 {
    Bus.Read(after.bus, 0x0100 + (before.r.s - k) % 0x100)
  }

  /** The next step executes a BRK opcode. */
  predicate ExecutesBrk(m: Machine) {
    Dispatches(m) && Bus.Read(m.bus, m.r.pc) == 0x00
  }

  lemma Opcode0(variant: Variant, op: uint8)
    ensures Handlers.HandlerOf(variant, op) == Instructions.BRK <==> op == 0
  {
    hide Handlers.HandlerOf;
    if Handlers.HandlerOf(variant, op) == Instructions.BRK {
      OnlyOpcode0IsBrk(variant, op);
    }
    OpcodeTables.HandlerDecoded(variant, 0);
  }

  /** Which service the next step performs: NMI before IRQ, IRQ only with I clear, BRK only if neither is due. */
  lemma ServiceChosen(m: Machine)
    ensures ServiceOf(m) == Nmi <==> m.ic.nmiPending
    ensures ServiceOf(m) == Irq <==> !m.ic.nmiPending && m.ic.irqLine != 0 && !m.r.p.i
    ensures ServiceOf(m) == Brk <==> ExecutesBrk(m)
    ensures ExecutesBrk(m) ==> !m.ic.nmiPending && (m.ic.irqLine == 0 || m.r.p.i) && !m.stopped && !m.waiting
  {
    hide Handlers.HandlerOf, Bus.Read;
    Opcode0(m.variant, NextOpcode(m));
  }

  /** The status byte a service pushes: bit 4 tells BRK from an interrupt line, bit 5 is set, the others are the
      interrupted flags. */
  lemma PushedStatusBits(m: Machine)
    requires StackInRam(m.bus) && ServiceOf(m) != NoInterrupt
    ensures var byte := Pushed(m, Step(m), 2);
            (Bit(byte, 4) <==> ExecutesBrk(m)) && Bit(byte, 5) && SaysFlags(byte, m.r.p)
  {
    hide Step, ServiceOf, ServicePc, ExecutesBrk, StackInRam, Bus.Read, Pack, Bit;
    ServiceOpens(m);
    ServiceChosen(m);
    PackBits(m.r.p.(b := ServiceOf(m) == Brk, u := true));
  }

  /** The return address a service pushes, high byte first: the interrupted PC, or two past a BRK opcode. */
  lemma PushedReturnAddress(m: Machine)
    requires StackInRam(m.bus) && ServiceOf(m) != NoInterrupt
    ensures var pc := if ExecutesBrk(m) then (m.r.pc + 2) % 0x1_0000 else m.r.pc;
            Pushed(m, Step(m), 0) == pc / 0x100 && Pushed(m, Step(m), 1) == pc % 0x100
  {
    hide Step, ServiceOf, ServicePc, ExecutesBrk, StackInRam, Bus.Read;
    ServiceOpens(m);
    ServiceChosen(m);
    ReturnPcOf(m);
    ServiceNamed(m);
  }

  lemma ServiceNamed(m: Machine)
    ensures ServiceOf(m) in {NoInterrupt, Nmi, Irq, Brk}
  {
  }

  /** Registers after a service: three bytes pushed, PC from $FFFA for NMI and from $FFFE otherwise, I set, D cleared on
      CMOS only, everything else as before. */
  lemma ServiceEnters(m: Machine)
    requires ServiceOf(m) != NoInterrupt
    ensures var t, vector := Step(m), if m.ic.nmiPending then 0xFFFA else 0xFFFE;
            && t.r.pc == Bus.Read(t.bus, vector) + 0x100 * Bus.Read(t.bus, vector + 1)
            && t.r == m.r.(pc := t.r.pc, s := (m.r.s - 3) % 0x100,
                           p := m.r.p.(i := true, d := m.r.p.d && m.variant == NMOS))
            && !t.waiting && t.stopped == m.stopped
  {
    hide Step, ExecutesBrk, Bus.Read, NextHandler, NextMode, Decode, Fetch, Serviced;
    ServiceChosen(m);
    if Due(m) != NoInterrupt {
      StepService(m);
      EntersThrough(Polled(m), Due(m), Step(m));
    } else {
      DecodeEffect(NextMode(m), Polled(m));
      StepBrk(m);
      EntersThrough(Decoded(m), Brk, Executed(m));
    }
  }

  lemma EntersThrough(m: Machine, kind: InterruptType, t: Machine)
    requires Serviced(m, kind, t)
    ensures var vector := if kind == Nmi then 0xFFFA else 0xFFFE;
            t.r.pc == Bus.Read(t.bus, vector) + 0x100 * Bus.Read(t.bus, vector + 1)
    ensures t.r == m.r.(pc := t.r.pc, s := (m.r.s - 3) % 0x100,
                        p := m.r.p.(i := true, d := m.r.p.d && m.variant == NMOS))
    ensures !t.waiting && t.stopped == m.stopped
  {
    hide Bus.Read, Interrupts.PushFrame, Record, Bus.AgreeOutside, Served;
  }

  /** What a service records: its kind, the PC it found (one past a BRK opcode), the live status byte, the poll count. */
  lemma ServiceRecorded(m: Machine)
    requires ServiceOf(m) != NoInterrupt
    ensures var e := Step(m).ic.history[m.ic.historyIndex];
            && e.kind == (if m.ic.nmiPending then Nmi else if ExecutesBrk(m) then Brk else Irq)
            && e.pc == (if ExecutesBrk(m) then (m.r.pc + 1) % 0x1_0000 else m.r.pc)
            && SaysFlags(e.p, m.r.p) && (Bit(e.p, 5) <==> m.r.p.u) && (Bit(e.p, 4) <==> m.r.p.b)
            && e.cycle == (m.ic.clock + 1) % 0x1_0000_0000_0000_0000
  {
    hide Step, ExecutesBrk, Bus.Read, Pack, Bit, Handlers.HandlerOf, ModeOf, Decode, Fetch;
    ServiceChosen(m);
    StepController(m);
    PackBits(m.r.p);
    if ServiceOf(m) == Brk {
      BrkFetched(m);
    }
  }

  lemma BrkFetched(m: Machine)
    requires ServiceOf(m) == Brk
    ensures ServicePc(m) == (m.r.pc + 1) % 0x1_0000
  {
    hide Step, Fetch, Decode, Handlers.HandlerOf, ModeOf;
    DecodeEffect(NextMode(m), Polled(m));
    BrkOpcode(m.variant, NextOpcode(m));
  }
}
