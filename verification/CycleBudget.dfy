/** The largest budget for which the run loop is sure to end or to meet an idle machine. */
module CycleBudget {
  import opened Types
  import opened StatusRegister
  import opened InterruptController
  import opened MachineState
  import opened Addressing
  import opened Instructions
  import opened Cpu
  import opened StepEffects
  import opened Runs
  import opened Cycles
  import Arithmetic
  import Handlers
  import Bus

  /** LDA $0200; SLO ($00),Y; JMP $0200 in ROM, page 0 unmapped. */
  const LOOP_CODE: Bus.Space :=
    Bus.Space(map a: uint16 | 0x0200 <= a < 0x0208 :: Bus.Rom,
              map[0x0200 := 0xAD, 0x0201 := 0x00, 0x0202 := 0x02, 0x0203 := 0x13, 0x0204 := 0x00,
                  0x0205 := 0x4C, 0x0206 := 0x00, 0x0207 := 0x02])

  /** Running the loop on NMOS with no line active; Y makes the pointer cross a page. */
  predicate Looping(m: Machine, pc: uint16) {
    && m.variant == NMOS && m.bus == LOOP_CODE && m.r.pc == pc && m.r.y == 1
    && !m.stopped && !m.waiting && !m.ic.nmiPending && m.ic.irqLine == 0
  }

  function LoopMachine(): Machine {
    Machine(NMOS, Registers(0x0205, 0, 0, 1, 0xFD, Unpack(RESET_STATUS)), 7, false, false,
            Latch(0, 0, false, false, false, false, 0), LOOP_CODE, Initial(0))
  }

  /** What the tables say of an opcode on NMOS. */
  predicate Row(op: uint8, handler: Handler, mode: Mode, cycles: nat) {
    Handlers.HandlerOf(NMOS, op) == handler && ModeOf(NMOS, op) == mode && CyclesOf(NMOS, op) == cycles
  }

  lemma JumpRow()
    ensures Row(0x4C, JMP, Abs, 3)
  {
  }

  lemma LoadRow()
    ensures Row(0xAD, Reg(LDA), Abs, 4)
  {
  }

  lemma ShiftRow()
    ensures Row(0x13, Mem(SLO), IndY, 8)
  {
  }

  lemma JumpDecoded(m: Machine)
    requires Looping(m, 0x0205)
    ensures Decoded(m).latch.ea == 0x0200
  {
    hide Handlers.HandlerOf, ModeOf, CyclesOf;
    JumpRow();
  }

  lemma JumpStep(m: Machine)
    requires Looping(m, 0x0205)
    ensures StepCost(m) == 3 && Looping(Step(m), 0x0200)
  {
    hide Handlers.HandlerOf, ModeOf, CyclesOf, Decode, Fetch;
    JumpRow();
    DecodeEffect(NextMode(m), Polled(m));
    JumpDecoded(m);
  }

  lemma LoadStep(m: Machine)
    requires Looping(m, 0x0200)
    ensures StepCost(m) == 4 && Looping(Step(m), 0x0203)
  {
    hide Handlers.HandlerOf, ModeOf, CyclesOf, Decode, Fetch, SetZN;
    LoadRow();
    DecodeEffect(NextMode(m), Polled(m));
  }

  lemma ShiftDecoded(m: Machine)
    requires Looping(m, 0x0203)
    ensures var d := Decoded(m);
            && d.r == m.r.(pc := 0x0205) && d.bus == m.bus
            && d.latch.opcode == 0x13 && d.latch.hasEa && d.latch.ea == 0 && d.latch.pageCross
  {
    hide Handlers.HandlerOf, CyclesOf, ModeOf;
    ShiftRow();
  }

  /** The undocumented read-modify-write pays for the page crossing: 9 cycles. */
  lemma ShiftStep(m: Machine)
    requires Looping(m, 0x0203)
    ensures StepCost(m) == 9 && Looping(Step(m), 0x0205)
  {
    hide Handlers.HandlerOf, ModeOf, CyclesOf, SetZN, OpcodeMask, Decode, Fetch, Arithmetic.Shift, Or8;
    ShiftRow();
    DecodeEffect(NextMode(m), Polled(m));
    ShiftDecoded(m);
  }

  function PcIn(i: nat): uint16 {
    if i == 0 then 0x0205 else if i == 1 then 0x0200 else 0x0203
  }

  function CostIn(i: nat): nat {
    if i == 0 then 3 else if i == 1 then 4 else 9
  }

  /** Cycles spent in a round before its step `i`. */
  function SpentIn(i: nat): nat {
    if i == 0 then 0 else if i == 1 then 3 else 7
  }

  lemma LoopStep(m: Machine, i: nat)
    requires i < 3 && Looping(m, PcIn(i))
    ensures StepCost(m) == CostIn(i) && Looping(Step(m), PcIn((i + 1) % 3))
  {
    hide Step, StepCost, Looping;
    match i {
      case 0 => JumpStep(m);
      case 1 => LoadStep(m);
      case _ => ShiftStep(m);
    }
  }

  function SpentAfter(n: nat): uint32 {
    Low32(16 * (n / 3) + SpentIn(n % 3))
  }

  lemma SpentNext(n: nat)
    ensures SpentAfter(n + 1) == Low32(SpentAfter(n) + CostIn(n % 3))
  {
    hide Low32;
    Low32Adds(16 * (n / 3) + SpentIn(n % 3), CostIn(n % 3));
  }

  /** Where the loop stands after `n` steps, and what it has spent since it began. */
  lemma {:induction false} LoopAfter(m: Machine, n: nat)
    requires Looping(m, PcIn(0))
    ensures Looping(Steps(m, n), PcIn(n % 3)) && Elapsed(m, n) == SpentAfter(n)
    decreases n
  {
    hide Step, StepCost, Looping, PcIn, CostIn, SpentIn;
    if n == 0 {
      LoopStart(m);
    } else {
      LoopAfter(m, n - 1);
      LoopStep(Steps(m, n - 1), (n - 1) % 3);
      ElapsedModulo(m, n - 1);
      SpentNext(n - 1);
    }
  }

  lemma LoopStart(m: Machine)
    ensures Steps(m, 0) == m && Elapsed(m, 0) == SpentAfter(0) == 0
  {
  }

  /** The run loop finishes near its budget or meets an idle machine. */
  ghost predicate Settles(m: Machine, budget: nat) {
    exists end :: Finishes(m, budget, end) || Hangs(m, budget, end)
  }

  /** The loop spends 16 cycles a round and jumps from 2^32 - 9 to 0: it is never idle and never has more behind it. */
  lemma LoopNeverSettles(m: Machine, budget: nat)
    requires Looping(m, PcIn(0)) && budget > LARGEST_BUDGET
    ensures !Settles(m, budget)
    ensures forall n: nat :: Elapsed(m, n) < budget && !Idle(Steps(m, n))
  {
    hide Steps, Elapsed;
    forall n: nat
      ensures Elapsed(m, n) < budget && !Idle(Steps(m, n))
    {
      LoopAfter(m, n);
      MultipleOf16(n / 3);
    }
  }

  lemma MultipleOf16(k: nat)
    ensures Low32(16 * k + 3) <= LARGEST_BUDGET && Low32(16 * k + 7) <= LARGEST_BUDGET && Low32(16 * k) <= LARGEST_BUDGET
  {
    hide Low32;
    var q, r := k / 0x1000_0000, k % 0x1000_0000;
    Low32Of(q, 16 * r);
    Low32Of(q, 16 * r + 3);
    Low32Of(q, 16 * r + 7);
  }

  lemma Low32Of(q: nat, r: uint32)
    ensures Low32(0x1_0000_0000 * q + r) == r
  {
  }

  /** Every machine settles exactly on the budgets up to 2^32 - 9. */
  lemma BudgetExact(budget: nat)
    ensures (forall m: Machine :: Settles(m, budget)) <==> budget <= LARGEST_BUDGET
  {
    hide Settles, Looping;
    if budget <= LARGEST_BUDGET {
      forall m: Machine
        ensures Settles(m, budget)
      {
        EverySettles(m, budget);
      }
    } else {
      LoopMachineLoops();
      LoopNeverSettles(LoopMachine(), budget);
    }
  }

  lemma EverySettles(m: Machine, budget: nat)
    requires budget <= LARGEST_BUDGET
    ensures Settles(m, budget)
  {
    hide Finishes, Hangs;
    var end := RunOutcome(m, budget);
  }

  lemma LoopMachineLoops()
    ensures Looping(LoopMachine(), PcIn(0))
  {
  }

  /** Both extremes are reached: a step of 9 cycles, and a run that overshoots its budget by 8. */
  lemma ExtremesReached()
    ensures StepCost(Steps(LoopMachine(), 2)) == 9
    ensures Finishes(LoopMachine(), 8, 3) && Elapsed(LoopMachine(), 3) == 8 + 8
  {
    hide Step, Steps, StepCost, Elapsed, Looping;
    var m := LoopMachine();
    LoopMachineLoops();
    LoopAfter(m, 0);
    LoopAfter(m, 1);
    LoopAfter(m, 2);
    LoopAfter(m, 3);
    ShiftStep(Steps(m, 2));
  }
}
