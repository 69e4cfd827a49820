/** How many cycles a step costs, and how far a run can overshoot its budget. */
module Cycles {
  import opened Types
  import opened InterruptController
  import opened MachineState
  import opened Addressing
  import opened Instructions
  import opened Cpu
  import opened Frame
  import opened StepEffects
  import opened Runs
  import Interrupts
  import OpcodeBits
  import OpcodeTables
  import Handlers
  import Bus

  /** The NMOS opcodes whose base count is zero; each stops the CPU. */
  predicate CostsNothing(variant: Variant, op: uint8) {
    variant == NMOS && op in {0x02, 0x22, 0x42, 0x62}
  }

  /** Exact cycle cost of a step. */
  function StepCost(m: Machine): nat {
    if Due(m) != NoInterrupt then 7
    else if !Dispatches(m) then 0
    else CyclesOf(m.variant, NextOpcode(m)) + JumpCycle(NextHandler(m), Decoded(m)) + Penalty(Executed(m).latch)
  }

  lemma Low32Adds(a: int, b: int)
    ensures Low32(Low32(a) + b) == Low32(a + b)
  {
  }

  lemma BrkCost(m: Machine)
    requires Dispatches(m) && NextHandler(m) == BRK
    ensures Step(m).cycles == Low32(m.cycles + StepCost(m))
  {
    hide Step, NextHandler, NextMode, CyclesOf, Exec, Decode, Fetch, Interrupts.PushFrame, Record, Bus.AgreeOutside, Low32;
    DecodeEffect(NextMode(m), Polled(m));
    StepBrk(m);
    var base := CyclesOf(m.variant, NextOpcode(m));
    Low32Adds(m.cycles + base, 0);
    Low32Adds(m.cycles + base, Penalty(Executed(m).latch));
  }

  lemma DispatchCost(m: Machine)
    requires Dispatches(m) && NextHandler(m) != BRK
    ensures Step(m).cycles == Low32(m.cycles + StepCost(m))
  {
    hide Step, NextHandler, NextMode, CyclesOf, Exec, Decode, Fetch, JumpCycle, Penalty, Bus.AgreeOutside, Low32,
         KeepsControl, KeepsFlags, Low8;
    DecodeEffect(NextMode(m), Polled(m));
    StepDispatch(m);
    var base, jump := CyclesOf(m.variant, NextOpcode(m)), JumpCycle(NextHandler(m), Decoded(m));
    Low32Adds(m.cycles + base, jump);
    Low32Adds(m.cycles + base + jump, Penalty(Executed(m).latch));
  }

  lemma CostAdded(m: Machine)
    ensures Step(m).cycles == Low32(m.cycles + StepCost(m))
  {
    hide Step, NextHandler, NextMode, CyclesOf, Exec, Decode, Fetch, Interrupts.PushFrame, Record, Bus.AgreeOutside;
    if Due(m) != NoInterrupt {
      StepService(m);
    } else if !Dispatches(m) {
      StepIdle(m);
    } else if NextHandler(m) == BRK {
      BrkCost(m);
    } else {
      DispatchCost(m);
    }
  }

  /** Base counts lie in 2..8; branches and jumps leave room for their extra cycles. */
  lemma BaseCosts(variant: Variant, op: uint8)
    ensures !CostsNothing(variant, op) ==> 2 <= CyclesOf(variant, op) <= 8
    ensures CostsNothing(variant, op) ==> CyclesOf(variant, op) == 0
  {
    hide CyclesOf, OpcodeBits.CyclesByBits;
    OpcodeTables.Bits(op);
    OpcodeTables.CyclesDecoded(variant, op);
    BitCosts(variant, op / 32, op / 4 % 8, op % 4);
  }

  lemma BitCosts(variant: Variant, a: nat, b: nat, c: nat)
    requires a < 8 && b < 8 && c < 4
    ensures var cost := OpcodeBits.CyclesByBits(variant, a, b, c);
            if variant == NMOS && a < 4 && b == 0 && c == 2 then cost == 0 else 2 <= cost <= 8
  {
    hide OpcodeBits.ClassCycles, OpcodeBits.ModeByBits, OpcodeBits.FusedColumn, OpcodeBits.FusedMode, OpcodeBits.HandlerByBits;
    ClassCosts(OpcodeBits.HandlerByBits(variant, a, b, c), OpcodeBits.ModeByBits(variant, a, b, c));
    ClassCosts(OpcodeBits.FusedColumn(a, b), OpcodeBits.FusedMode(a, b));
    if c != 3 {
      KilBits(variant, a, b, c);
    }
  }

  lemma ClassCosts(h: Handler, mode: Mode)
    ensures 2 <= OpcodeBits.ClassCycles(h, mode) <= 8
  {
  }

  lemma KilBits(variant: Variant, a: nat, b: nat, c: nat)
    requires a < 8 && b < 8 && c < 3
    ensures OpcodeBits.HandlerByBits(variant, a, b, c) == KIL <==>
            variant == NMOS && c == 2 && (b == 4 || (b == 0 && a < 4))
  {
  }

  lemma BranchCosts(variant: Variant, op: uint8)
    ensures var h := Handlers.HandlerOf(variant, op);
            && (h.Bra? ==> CyclesOf(variant, op) <= 5)
            && (h.JMP? ==> CyclesOf(variant, op) <= 6)
            && (CostsNothing(variant, op) ==> h.KIL?)
  {
    hide CyclesOf, Handlers.HandlerOf;
    OpcodeTables.Bits(op);
    OpcodeTables.CyclesDecoded(variant, op);
    OpcodeTables.HandlerDecoded(variant, op);
  }

  /** Without a branch no branch cycle is charged. */
  lemma PenaltyBound(m: Machine)
    requires Dispatches(m)
    ensures Penalty(Executed(m).latch) <= if NextHandler(m).Bra? then 3 else 1
  {
    hide Step, NextHandler, NextMode, Exec, Decode, Fetch, Interrupts.PushFrame, Record, Bus.AgreeOutside,
         SuppressesPageCross;
    DecodeEffect(NextMode(m), Polled(m));
    if NextHandler(m) == BRK {
      StepBrk(m);
    } else {
      StepDispatch(m);
    }
  }

  /** A step that is not idle costs 2 to 9 cycles, except the four NMOS opcodes that cost nothing and stop the CPU. */
  lemma CostBounds(m: Machine)
    ensures Due(m) != NoInterrupt ==> StepCost(m) == 7
    ensures Dispatches(m) && !CostsNothing(m.variant, NextOpcode(m)) ==> 2 <= StepCost(m) <= 9
    ensures Dispatches(m) && CostsNothing(m.variant, NextOpcode(m)) ==> StepCost(m) == 0 && Step(m).stopped
  {
    hide Step, NextMode, CyclesOf, Exec, Decode, Fetch, Penalty, CostsNothing, Handlers.HandlerOf;
    if Dispatches(m) {
      BaseCosts(m.variant, NextOpcode(m));
      BranchCosts(m.variant, NextOpcode(m));
      PenaltyBound(m);
      if CostsNothing(m.variant, NextOpcode(m)) {
        StopsForFree(m);
      }
    }
  }

  lemma StopsForFree(m: Machine)
    requires Dispatches(m) && CostsNothing(m.variant, NextOpcode(m))
    ensures StepCost(m) == 0 && Step(m).stopped
  {
    hide Step, ModeOf, Decode, Fetch, CyclesOf, Handlers.HandlerOf;
    BaseCosts(m.variant, NextOpcode(m));
    BranchCosts(m.variant, NextOpcode(m));
    FreeOpcodePlain(m.variant, NextOpcode(m));
    DecodeEffect(NextMode(m), Polled(m));
    StepDispatch(m);
  }

  lemma FreeOpcodePlain(variant: Variant, op: uint8)
    requires CostsNothing(variant, op)
    ensures !ModeOf(variant, op).AbsX? && !ModeOf(variant, op).AbsY? && !ModeOf(variant, op).IndY?
  {
  }

  /** Nothing is due and the CPU neither runs nor wakes by itself. */
  predicate Idle(m: Machine) {
    Due(m) == NoInterrupt && (m.stopped || m.waiting)
  }

  /** An idle machine is a fixed point of the step, apart from the poll counter. */
  lemma IdleFixed(m: Machine)
    requires Idle(m)
    ensures Step(m) == m.(ic := Ticked(m.ic)) && Idle(Step(m))
  {
    StepIdle(m);
  }

  /** `CYCLES - start_cycles` in the run loop's 32-bit arithmetic. */
  function Elapsed(m: Machine, n: nat): uint32 {
    Low32(Steps(m, n).cycles - m.cycles)
  }

  const LARGEST_BUDGET := 0x1_0000_0000 - 9

  predicate Under(m: Machine, budget: nat, n: nat) {
    forall k: nat :: k <= n ==> Elapsed(m, k) < budget
  }

  /** The run loop leaves after `n` steps, at most 8 cycles over budget. */
  predicate Finishes(m: Machine, budget: nat, n: nat) {
    budget <= Elapsed(m, n) <= budget + 8 && forall k: nat :: k < n ==> Elapsed(m, k) < budget
  }

  /** After `n` steps the machine is idle with budget left: the run loop never leaves. */
  predicate Hangs(m: Machine, budget: nat, n: nat) {
    Idle(Steps(m, n)) && Under(m, budget, n)
  }

  lemma CostAtMost9(m: Machine)
    ensures StepCost(m) <= 9
  {
    hide Step, NextHandler, NextMode, StepCost, CostsNothing;
    CostBounds(m);
    if !Dispatches(m) && Due(m) == NoInterrupt {
      IdleCostsNothing(m);
    }
  }

  lemma IdleCostsNothing(m: Machine)
    requires Due(m) == NoInterrupt && !Dispatches(m)
    ensures StepCost(m) == 0
  {
  }

  /** One more step adds its cost modulo 2^32. */
  lemma ElapsedModulo(m: Machine, n: nat)
    ensures Elapsed(m, n + 1) == Low32(Elapsed(m, n) + StepCost(Steps(m, n)))
  {
    hide Step, StepCost;
    CostAdded(Steps(m, n));
    var before: int, cost: int, start: int := Steps(m, n).cycles, StepCost(Steps(m, n)), m.cycles;
    Low32Adds(before - start, cost);
    Low32Adds(before + cost, -start);
  }

  /** Below the bound, one more step adds its cost exactly, even where the counter wraps. */
  lemma ElapsedNext(m: Machine, n: nat)
    requires Elapsed(m, n) < LARGEST_BUDGET
    ensures Elapsed(m, n + 1) == Elapsed(m, n) + StepCost(Steps(m, n)) <= Elapsed(m, n) + 9
  {
    hide Step, StepCost;
    ElapsedModulo(m, n);
    CostAtMost9(Steps(m, n));
  }

  /** A machine that is not idle either spends cycles or, having stopped for free, is about to. */
  function FreeStepsLeft(m: Machine): nat {
    if m.stopped then 0 else 1
  }

  lemma BusyProgress(m: Machine)
    requires !Idle(m)
    ensures StepCost(m) >= 2 || (StepCost(m) == 0 && !m.stopped && Step(m).stopped)
  {
    hide Step, NextHandler, NextMode, StepCost, CostsNothing;
    CostBounds(m);
  }

  /** From any point with budget left, the loop finishes or meets an idle machine. */
  lemma {:induction false} RunFrom(m: Machine, budget: nat, n: nat) returns (end: nat)
    requires budget <= LARGEST_BUDGET && Under(m, budget, n)
    ensures Finishes(m, budget, end) || Hangs(m, budget, end)
    decreases budget - Elapsed(m, n), FreeStepsLeft(Steps(m, n))
  {
    hide Step, StepCost, Idle, Elapsed;
    if Idle(Steps(m, n)) {
      end := n;
    } else {
      BusyProgress(Steps(m, n));
      ElapsedNext(m, n);
      if Elapsed(m, n + 1) >= budget {
        end := n + 1;
      } else {
        end := RunFrom(m, budget, n + 1);
      }
    }
  }

  /** With fixed lines, the run loop ends within 8 cycles of its budget or reaches an idle machine. */
  lemma RunOutcome(m: Machine, budget: nat) returns (end: nat)
    requires budget <= LARGEST_BUDGET
    ensures Finishes(m, budget, end) || Hangs(m, budget, end)
  {
    hide Step;
    if budget == 0 {
      end := 0;
    } else {
      end := RunFrom(m, budget, 0);
    }
  }

  /** Once idle with budget left, no number of further steps uses the budget up. */
  lemma {:induction false} HangsForever(m: Machine, budget: nat, n: nat, k: nat)
    requires Hangs(m, budget, n) && n <= k
    ensures Idle(Steps(m, k)) && Elapsed(m, k) < budget
    decreases k
  {
    hide Step, Idle;
    if k > n {
      HangsForever(m, budget, n, k - 1);
      IdleFixed(Steps(m, k - 1));
    }
  }
}
