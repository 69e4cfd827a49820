/** Which cells a step and a run may change, and why nothing else ever changes. */
module Footprint {
  import opened Types
  import opened InterruptController
  import opened MachineState
  import opened Instructions
  import opened Cpu
  import opened Frame
  import opened StepEffects
  import opened Runs
  import Interrupts
  import Bus

  /** Every address the next step may store to: one EA, or the slots it pushes to. */
  function StepWrites(m: Machine): set<uint16> {
    if Due(m) != NoInterrupt then SlotsBelow(m.r.s, 3)
    else if !Dispatches(m) then {}
    else Written(NextHandler(m), Decoded(m))
  }

  function Writes(m: Machine, e: Stimulus): set<uint16> {
    if e == Tick then StepWrites(m) else {}
  }

  function RunWrites(m: Machine, run: seq<Stimulus>): set<uint16>
    decreases run
  {
    if run == [] then {} else Writes(m, run[0]) + RunWrites(Apply(m, run[0]), run[1..])
  }

  lemma {:induction false} SlotsInStackPage(s: uint8, count: nat)
    ensures |SlotsBelow(s, count)| <= count
    ensures forall a :: a in SlotsBelow(s, count) ==> 0x0100 <= a <= 0x01FF
    decreases count
  {
    if count > 0 {
      SlotsInStackPage(Low8(s - 1), count - 1);
    }
  }

  /** A step changes at most three cells, all writable: the one at EA or up to three stack slots. */
  lemma StepFootprint(m: Machine)
    ensures Bus.AgreeOutside(m.bus, Step(m).bus, StepWrites(m))
    ensures |StepWrites(m)| <= 3
    ensures |StepWrites(m)| > 1 ==> forall a :: a in StepWrites(m) ==> 0x0100 <= a <= 0x01FF
  {
    hide Step, NextHandler, NextMode, Exec, Decode, Fetch, SlotsBelow, Interrupts.PushFrame, Record, Bus.AgreeOutside;
    if Due(m) != NoInterrupt {
      StepService(m);
      SlotsInStackPage(m.r.s, 3);
    } else if !Dispatches(m) {
      StepIdle(m);
      Bus.AgreeSelf(m.bus, {});
    } else {
      DecodeEffect(NextMode(m), Polled(m));
      SlotsInStackPage(m.r.s, PushCount(NextHandler(m)));
      if NextHandler(m) == BRK {
        StepBrk(m);
      } else {
        StepDispatch(m);
      }
    }
  }

  /** A run changes only writable cells that one of its steps stored to; ROM, unmapped addresses
      and the region map stay as they were. */
  lemma {:induction false} RunFootprint(m: Machine, run: seq<Stimulus>)
    ensures Bus.AgreeOutside(m.bus, Run(m, run).bus, RunWrites(m, run))
    decreases run
  {
    hide Step;
    if run != [] {
      var m1 := Apply(m, run[0]);
      if run[0] == Tick {
        StepFootprint(m);
      }
      RunFootprint(m1, run[1..]);
      Bus.AgreeTransitive(m.bus, m1.bus, Run(m1, run[1..]).bus, Writes(m, run[0]), RunWrites(m1, run[1..]));
    }
  }
}
