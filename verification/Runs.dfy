/** Whole runs: steps interleaved with resets, line changes and history clears. */
module Runs {
  import opened InterruptController
  import opened MachineState
  import opened Cpu

  datatype Stimulus = Tick | PowerReset | IrqLine(level: int) | NmiLine(level: int) | ClearLog

  function Apply(m: Machine, e: Stimulus): Machine {
    match e
    case Tick => Step(m)
    case PowerReset => Reset(m)
    case IrqLine(level) => m.(ic := SetIrq(m.ic, level))
    case NmiLine(level) => m.(ic := SetNmi(m.ic, level))
    case ClearLog => m.(ic := ClearHistory(m.ic))
  }

  function Run(m: Machine, run: seq<Stimulus>): Machine
    decreases run
  {
    if run == [] then m else Run(Apply(m, run[0]), run[1..])
  }

  /** The machine after `n` steps with no other stimulus. */
  function Steps(m: Machine, n: nat): Machine {
    if n == 0 then m else Step(Steps(m, n - 1))
  }

  /** The same run seen from its last stimulus. */
  lemma {:induction false} RunAppend(m: Machine, first: seq<Stimulus>, second: seq<Stimulus>)
    ensures Run(m, first + second) == Run(Run(m, first), second)
    decreases first
  {
    if first == [] {
      assert first + second == second;
    } else {
      assert (first + second)[1..] == first[1..] + second;
      RunAppend(Apply(m, first[0]), first[1..], second);
    }
  }
}
