/** How many cycles each instruction takes, read off its opcode, its addresses and whether it branches. */
module StepTiming {
  import opened Types
  import opened MachineState
  import opened Addressing
  import opened Instructions
  import opened Cpu
  import opened Frame
  import opened StepEffects
  import opened StepMeaning
  import opened FlowLaws
  import opened OpcodeBits
  import Cycles
  import OpcodeTables
  import Handlers
  import Bus

  /** Documented stores and read-modify-writes, and those of the 65C02, always pay for the page. */
  predicate AlwaysPays(h: Handler, op: uint8) {
    (h.Mem? || h.Shf?) && op % 4 != 3
  }

  /** Among indexed instructions exactly those are exempt from the page-crossing cycle. */
  lemma ExemptOpcodes(variant: Variant, op: uint8)
    requires Indexes(ModeOf(variant, op))
    ensures SuppressesPageCross(op) <==> AlwaysPays(Handlers.HandlerOf(variant, op), op)
  {
    hide Handlers.HandlerOf, ModeOf, SuppressesPageCross, AlwaysPays, HandlerByBits, ModeByBits;
    OpcodeTables.Bits(op);
    OpcodeTables.HandlerDecoded(variant, op);
    OpcodeTables.ModeDecoded(variant, op);
    ExemptByBits(variant, op / 32, op / 4 % 8, op % 4, op);
  }

  lemma ExemptByBits(variant: Variant, a: nat, b: nat, c: nat, op: uint8)
    requires a < 8 && b < 8 && c < 4 && op == 32 * a + 4 * b + c && Indexes(ModeByBits(variant, a, b, c))
    ensures SuppressesPageCross(op) <==> AlwaysPays(HandlerByBits(variant, a, b, c), op)
  {
    assert op % 4 == c;
  }

  /** Cycles charged for the next instruction whatever its addresses are. */
  function BaseCycles(m: Machine): nat {
    var op := NextOpcode(m);
    CyclesByBits(m.variant, op / 32, op / 4 % 8, op % 4)
  }

  /** Everything but branches: the base cycles, one more if an index crosses a page and the instruction does not always
      pay for it, and one more for JMP (abs) on CMOS. */
  lemma PlainTiming(m: Machine)
    requires Dispatches(m) && !NextHandler(m).Bra?
    ensures var page := if Crosses(m) && !AlwaysPays(NextHandler(m), NextOpcode(m)) then 1 else 0;
            var indirect := if m.variant == CMOS && NextOpcode(m) == 0x6C then 1 else 0;
            Step(m).cycles == (m.cycles + BaseCycles(m) + page + indirect) % 0x1_0000_0000
  {
    hide Handlers.HandlerOf, ModeOf, Step, Exec, Decode, Fetch, CyclesOf, CyclesByBits, SuppressesPageCross, CrossesPage, AlwaysPays,
         Executed;
    Cycles.CostAdded(m);
    OpcodeTables.CyclesDecoded(m.variant, NextOpcode(m));
    OpcodeTables.HandlerDecoded(m.variant, 0x6C);
    FetchedState(m);
    LatchKept(m);
    if Crosses(m) {
      CrossingIndexes(m);
      ExemptOpcodes(m.variant, NextOpcode(m));
    }
  }

  lemma CrossingIndexes(m: Machine)
    requires Crosses(m)
    ensures Indexes(NextMode(m))
  {
    hide NextMode, Fetch;
  }

  /** Only a branch marks the latch. */
  lemma LatchKept(m: Machine)
    requires Dispatches(m) && !NextHandler(m).Bra?
    ensures Penalty(Executed(m).latch) == if Crosses(m) && !SuppressesPageCross(NextOpcode(m)) then 1 else 0
  {
    hide NextHandler, NextMode, Step, Exec, Decode, Fetch, SuppressesPageCross, Crosses, KeepsFlags, Bus.AgreeOutside;
    DecodeEffect(NextMode(m), Polled(m));
    FetchedState(m);
    if NextHandler(m) == BRK {
      StepBrk(m);
    } else {
      StepDispatch(m);
    }
  }

  lemma BranchLatch(m: Machine, op: BranchOp)
    requires Runs(m, Bra(op)) && !Indexes(NextMode(m))
    ensures Penalty(Executed(m).latch) ==
            if !TakesBranch(m, op) then 0 else if BranchGoal(m, op) / 0x100 == Following(m) / 0x100 then 1 else 2
  {
    hide NextHandler, NextMode, Decode, Fetch, Address, Following, BitMask, Bus.Read, Taken, Crosses, SuppressesPageCross;
    DecodeEffect(NextMode(m), Polled(m));
    FetchedState(m);
    if Crosses(m) {
      CrossingIndexes(m);
      assert false;
    }
  }

  /** Branches: one cycle more when taken, and one more when the target lies in another page than the next instruction. */
  lemma BranchTiming(m: Machine, taken: bool, target: uint16)
    requires Dispatches(m) && IsBranch(m, taken, target)
    ensures var extra := if !taken then 0 else if target / 0x100 == Following(m) / 0x100 then 1 else 2;
            Step(m).cycles == (m.cycles + BaseCycles(m) + extra) % 0x1_0000_0000
  {
    hide Handlers.HandlerOf, ModeOf, Step, Executed, CyclesOf, CyclesByBits, Penalty, TakesBranch, BranchGoal, Following;
    Cycles.CostAdded(m);
    OpcodeTables.CyclesDecoded(m.variant, NextOpcode(m));
    BranchLatch(m, NextHandler(m).branch);
  }
}
