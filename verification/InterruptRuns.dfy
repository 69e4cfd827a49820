/** NMI edges, IRQ masking and interrupt services over whole runs. */
module InterruptRuns {
  import opened StatusRegister
  import opened InterruptController
  import opened MachineState
  import opened Instructions
  import opened Cpu
  import opened Frame
  import opened StepEffects
  import opened Runs
  import Interrupts
  import Bus

  /** The machine just before stimulus `i` of the run. */
  function At(m: Machine, run: seq<Stimulus>, i: nat): Machine
    requires i <= |run|
  {
    Run(m, run[..i])
  }

  predicate EdgeAt(m: Machine, run: seq<Stimulus>, i: nat)
    requires i < |run|
  {
    run[i].NmiLine? && FallingEdge(At(m, run, i).ic, run[i].level)
  }

  predicate ServesAt(m: Machine, run: seq<Stimulus>, i: nat, kind: InterruptType)
    requires i < |run|
  {
    run[i].Tick? && ServiceOf(At(m, run, i)) == kind
  }

  predicate NoNmiServedFrom(m: Machine, run: seq<Stimulus>, start: nat) {
    forall j :: start <= j < |run| ==> !ServesAt(m, run, j, Nmi)
  }

  lemma RunLast(m: Machine, run: seq<Stimulus>)
    requires run != []
    ensures Run(m, run) == Apply(Run(m, run[..|run| - 1]), run[|run| - 1])
  {
    hide Step;
    var last := run[|run| - 1];
    assert run == run[..|run| - 1] + [last];
    RunAppend(m, run[..|run| - 1], [last]);
    var before := Run(m, run[..|run| - 1]);
    assert [last][1..] == [];
    assert Run(before, [last]) == Run(Apply(before, last), []);
  }

  /** `At`, `EdgeAt` and `ServesAt` of a position do not look at what follows it. */
  lemma PrefixStable(m: Machine, run: seq<Stimulus>, i: nat)
    requires i < |run| - 1
    ensures EdgeAt(m, run, i) == EdgeAt(m, run[..|run| - 1], i)
    ensures forall kind :: ServesAt(m, run, i, kind) == ServesAt(m, run[..|run| - 1], i, kind)
  {
    hide Step;
    assert run[..|run| - 1][..i] == run[..i];
  }

  lemma PendingAfter(m: Machine, e: Stimulus)
    ensures Apply(m, e).ic.nmiPending ==
            ((e.NmiLine? && FallingEdge(m.ic, e.level)) || (m.ic.nmiPending && !(e == Tick && ServiceOf(m) == Nmi)))
  {
    hide Step;
    if e == Tick {
      StepController(m);
    }
  }

  /** An edge that no later NMI service has consumed. */
  ghost predicate UnservedEdge(m: Machine, run: seq<Stimulus>) {
    exists i :: 0 <= i < |run| && EdgeAt(m, run, i) && NoNmiServedFrom(m, run, i + 1)
  }

  /** The latch holds exactly when some falling edge has not been followed by an NMI service. */
  lemma {:induction false} PendingIffUnservedEdge(m: Machine, run: seq<Stimulus>)
    ensures Run(m, run).ic.nmiPending <==>
            UnservedEdge(m, run) || (m.ic.nmiPending && NoNmiServedFrom(m, run, 0))
    decreases run
  {
    hide Step;
    if run != [] {
      var n := |run| - 1;
      var prefix := run[..n];
      var before := Run(m, prefix);
      PendingIffUnservedEdge(m, prefix);
      RunLast(m, run);
      PendingAfter(before, run[n]);
      assert At(m, run, n) == before;
      forall i | 0 <= i < n
        ensures EdgeAt(m, run, i) == EdgeAt(m, prefix, i)
        ensures ServesAt(m, run, i, Nmi) == ServesAt(m, prefix, i, Nmi)
      {
        PrefixStable(m, run, i);
      }
      forall start: nat | start <= n
        ensures NoNmiServedFrom(m, run, start) <==> NoNmiServedFrom(m, prefix, start) && !ServesAt(m, run, n, Nmi)
      {
      }
      if EdgeAt(m, run, n) {
        assert NoNmiServedFrom(m, run, n + 1);
      }
    }
  }

  /** Falling edges the run drives on the NMI line. */
  function Edges(m: Machine, run: seq<Stimulus>): nat
    decreases run
  {
    if run == [] then 0
    else (if EdgeAt(m, run, 0) then 1 else 0) + Edges(Apply(m, run[0]), run[1..])
  }

  /** Services of the given kind in the run. */
  function Services(m: Machine, run: seq<Stimulus>, kind: InterruptType): nat
    decreases run
  {
    if run == [] then 0
    else (if ServesAt(m, run, 0, kind) then 1 else 0) + Services(Apply(m, run[0]), run[1..], kind)
  }

  function PendingCount(c: Controller): nat {
    if c.nmiPending then 1 else 0
  }

  /** Every NMI serviced, and the one still pending, has an edge of its own. */
  lemma {:induction false} NmiServicesNeedEdges(m: Machine, run: seq<Stimulus>)
    ensures Services(m, run, Nmi) + PendingCount(Run(m, run).ic) <= Edges(m, run) + PendingCount(m.ic)
    decreases run
  {
    hide Step;
    if run != [] {
      assert At(m, run, 0) == m;
      PendingAfter(m, run[0]);
      NmiServicesNeedEdges(Apply(m, run[0]), run[1..]);
    }
  }

  /** A pending NMI is taken by the next step whatever I, the IRQ line, waiting and stopped say. */
  lemma PendingNmiTaken(m: Machine)
    requires m.ic.nmiPending
    ensures var t := Step(m);
            && ServiceOf(m) == Nmi
            && t.r.pc == Bus.Read16(t.bus, 0xFFFA)
            && !t.ic.nmiPending && !t.waiting && t.r.p.i
  {
    hide Step, Interrupts.PushFrame, Record, Bus.Read16, Bus.AgreeOutside, Pack, SlotsBelow;
    StepService(m);
  }

  /** The run executes no CLI, PLP or RTI. */
  predicate NeverUnmasks(m: Machine, run: seq<Stimulus>)
    decreases run
  {
    run == [] ||
    (!(run[0] == Tick && Dispatches(m) && MayUnmask(NextHandler(m))) && NeverUnmasks(Apply(m, run[0]), run[1..]))
  }

  /** I is set by every service and by a reset, and cleared only by CLI, PLP or RTI. */
  lemma MaskAfter(m: Machine, e: Stimulus)
    requires m.r.p.i || (e == Tick && ServiceOf(m) != NoInterrupt)
    requires !(e == Tick && Dispatches(m) && MayUnmask(NextHandler(m)))
    ensures Apply(m, e).r.p.i
  {
    hide Step;
    if e == Tick {
      StepFlags(m);
    } else if e == PowerReset {
      ResetStatus();
    }
  }

  lemma {:induction false} MaskedRunServesNoIrq(m: Machine, run: seq<Stimulus>)
    requires m.r.p.i && NeverUnmasks(m, run)
    ensures Services(m, run, Irq) == 0 && Run(m, run).r.p.i
    decreases run
  {
    hide Step;
    if run != [] {
      assert At(m, run, 0) == m;
      MaskAfter(m, run[0]);
      MaskedRunServesNoIrq(Apply(m, run[0]), run[1..]);
    }
  }

  /** Between two IRQ services some CLI, PLP or RTI has been executed. */
  lemma IrqServicesSeparated(m: Machine, run: seq<Stimulus>)
    requires ServiceOf(m) == Irq && NeverUnmasks(Step(m), run)
    ensures Services(Step(m), run, Irq) == 0 && ServiceOf(Run(Step(m), run)) != Irq
  {
    hide Step;
    MaskAfter(m, Tick);
    MaskedRunServesNoIrq(Step(m), run);
  }

  /** Between steps: no sequence under way, and B clear in the live P. */
  predicate Settled(m: Machine) {
    Quiet(m.ic) && !m.r.p.b
  }

  lemma ApplySettled(m: Machine, e: Stimulus)
    requires Settled(m)
    ensures Settled(Apply(m, e))
  {
    hide Step, ServiceOf, ServicePc;
    if e == Tick {
      StepFlags(m);
      StepController(m);
    } else if e == PowerReset {
      ResetStatus();
    }
  }

  lemma {:induction false} RunSettled(m: Machine, run: seq<Stimulus>)
    requires Settled(m)
    ensures Settled(Run(m, run))
    decreases run
  {
    hide Settled, Apply;
    if run != [] {
      ApplySettled(m, run[0]);
      RunSettled(Apply(m, run[0]), run[1..]);
    }
  }

  /** From an initialised controller and a reset, every reachable machine is settled. */
  lemma ReachableSettled(m: Machine, run: seq<Stimulus>)
    requires m.ic == Initial(m.ic.clock)
    ensures Settled(Run(Reset(m), run))
  {
    hide Run;
    ResetStatus();
    RunSettled(Reset(m), run);
  }

  /** A sequence only ever begins when none is in progress, so an NMI hijacks nothing, and it completes in one call:
      the fall-through for a later cycle is never taken. */
  lemma SequencesNeverOverlap(m: Machine)
    requires Settled(m) && ServiceOf(m) != NoInterrupt
    ensures var before := if Due(m) != NoInterrupt then Polled(m) else Decoded(m);
            var begun := Interrupts.Begin(before, ServiceOf(m));
            && !before.ic.inProgress
            && begun.ic.sequenceCycle == 0 && begun.ic.current != NoInterrupt
            && Quiet(Interrupts.StepCycle(begun).ic)
  {
    hide Step, NextMode, NextHandler, Fetch, Decode, Interrupts.Enter;
    DecodeEffect(NextMode(m), Polled(m));
    BeginEffect(if Due(m) != NoInterrupt then Polled(m) else Decoded(m), ServiceOf(m));
  }
}
