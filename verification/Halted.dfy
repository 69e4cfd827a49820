/** Stopped and waiting machines: what can still happen to them. */
module Halted {
  import opened Types
  import opened StatusRegister
  import opened InterruptController
  import opened MachineState
  import opened Cpu
  import opened StepEffects
  import opened Runs
  import opened InterruptRuns
  import Interrupts

  predicate NoReset(run: seq<Stimulus>) {
    PowerReset !in run
  }

  /** Opcodes the run dispatches. */
  function Dispatched(m: Machine, run: seq<Stimulus>): nat
    decreases run
  {
    if run == [] then 0
    else (if run[0] == Tick && Dispatches(m) then 1 else 0) + Dispatched(Apply(m, run[0]), run[1..])
  }

  predicate SameIndexRegisters(m: Machine, t: Machine) {
    t.r.a == m.r.a && t.r.x == m.r.x && t.r.y == m.r.y
  }

  function IrqsLeft(m: Machine): nat {
    if m.r.p.i then 0 else 1
  }

  lemma StoppedStep(m: Machine)
    requires m.stopped
    ensures var t := Step(m);
            && t.stopped && SameIndexRegisters(m, t) && ServiceOf(m) == Due(m)
            && t.r.p.i == (m.r.p.i || Due(m) != NoInterrupt)
  {
    hide Step, NextHandler, Record, Interrupts.PushFrame, Pack, Bus.AgreeOutside, Bus.Read16, Low8, Served, Pending;
    if Due(m) != NoInterrupt {
      StepService(m);
    } else {
      StepIdle(m);
    }
  }

  lemma StoppedApply(m: Machine, e: Stimulus)
    requires m.stopped && e != PowerReset
    ensures var t := Apply(m, e);
            && t.stopped && SameIndexRegisters(m, t)
            && (e == Tick ==> !Dispatches(m) && ServiceOf(m) == Due(m))
            && IrqsLeft(t) + (if e == Tick && ServiceOf(m) == Irq then 1 else 0) <= IrqsLeft(m)
  {
    hide Step, NextHandler;
    if e == Tick {
      StoppedStep(m);
    }
  }

  /** Once stopped and until reset: no opcode is dispatched, A, X and Y keep their values, at most one IRQ is
      serviced, and every other service consumes an NMI edge. */
  lemma {:induction false} StoppedRun(m: Machine, run: seq<Stimulus>)
    requires m.stopped && NoReset(run)
    ensures var t := Run(m, run); t.stopped && SameIndexRegisters(m, t)
    ensures Dispatched(m, run) == 0 && Services(m, run, Brk) == 0
    ensures IrqsLeft(Run(m, run)) + Services(m, run, Irq) <= IrqsLeft(m)
    ensures Services(m, run, Nmi) <= Edges(m, run) + PendingCount(m.ic)
    decreases run
  {
    hide Step, ServiceOf;
    NmiServicesNeedEdges(m, run);
    if run != [] {
      assert At(m, run, 0) == m;
      StoppedApply(m, run[0]);
      StoppedRun(Apply(m, run[0]), run[1..]);
    }
  }

  /** Nothing is serviced and nothing resets. */
  predicate Undisturbed(m: Machine, run: seq<Stimulus>)
    decreases run
  {
    run == [] ||
    (run[0] != PowerReset && !(run[0] == Tick && Due(m) != NoInterrupt) && Undisturbed(Apply(m, run[0]), run[1..]))
  }

  lemma IdleApply(m: Machine, e: Stimulus)
    requires (m.waiting || m.stopped) && e != PowerReset && !(e == Tick && Due(m) != NoInterrupt)
    ensures Apply(m, e) == m.(ic := Apply(m, e).ic)
  {
    hide Step;
    if e == Tick {
      StepIdle(m);
    }
  }

  /** A waiting (or stopped) machine keeps registers, memory and cycle counter, and goes on waiting, until an
      interrupt is serviced or it is reset. */
  lemma {:induction false} WaitingRun(m: Machine, run: seq<Stimulus>)
    requires (m.waiting || m.stopped) && Undisturbed(m, run)
    ensures Run(m, run) == m.(ic := Run(m, run).ic)
    decreases run
  {
    hide Apply;
    if run != [] {
      IdleApply(m, run[0]);
      WaitingRun(Apply(m, run[0]), run[1..]);
    }
  }

  /** Waiting ends only by a service or a reset. */
  lemma WaitingEnds(m: Machine, e: Stimulus)
    requires m.waiting && !Apply(m, e).waiting
    ensures e == PowerReset || (e == Tick && Due(m) != NoInterrupt)
  {
    if e != PowerReset && !(e == Tick && Due(m) != NoInterrupt) {
      IdleApply(m, e);
    }
  }
}
