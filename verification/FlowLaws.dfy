/** Where PC goes: branches after comparisons, differences and loads, jumps, calls and returns; and what does nothing. */
module FlowLaws {
  import opened Types
  import opened StatusRegister
  import opened StatusBits
  import opened MachineState
  import opened Addressing
  import opened AddressModes
  import opened BitLaws
  import opened RegisterLaws
  import opened Instructions
  import opened Cpu
  import opened Frame
  import opened StepEffects
  import opened StepMeaning
  import OpcodeBits
  import OpcodeTables
  import Handlers
  import Bus

  /** The step goes to `target` if the branch is taken and to the next instruction otherwise, and changes nothing else. */
  predicate BranchesTo(m: Machine, t: Machine, taken: bool, target: uint16) {
    t.bus == m.bus && t.r == m.r.(pc := if taken then target else Following(m))
  }

  predicate TakesBranch(m: Machine, op: BranchOp) {
    Taken(op, m.r.p, Bus.Read(m.bus, Address(m)), BitMask(NextOpcode(m) / 0x10 % 8))
  }

  function BranchGoal(m: Machine, op: BranchOp): uint16 {
    if op.BBR? || op.BBS? then Low16(Following(m) + Decoded(m).latch.relOffset) else Address(m)
  }

  lemma BranchStep(m: Machine, op: BranchOp)
    requires Runs(m, Bra(op))
    ensures BranchesTo(m, Step(m), TakesBranch(m, op), BranchGoal(m, op))
  {
    hide NextHandler, NextMode, Decode, Fetch, Step, Address, Following, BitMask, Bus.Read, Taken, SamePage;
    StepIsHandler(m);
    FetchedState(m);
    assert Low16(Address(m)) == Address(m);
  }

  /** The next instruction is this branch: whether it is taken and where it goes. */
  predicate IsBranch(m: Machine, taken: bool, target: uint16) {
    && NextHandler(m).Bra? && !OpcodeBits.Indexes(NextMode(m))
    && TakesBranch(m, NextHandler(m).branch) == taken && BranchGoal(m, NextHandler(m).branch) == target
  }

  /** A conditional branch is taken iff the flag its top two bits name equals bit 5. */
  lemma ConditionalBranch(m: Machine)
    requires NextOpcode(m) % 32 == 0x10
    ensures var op := NextOpcode(m);
            IsBranch(m, OpcodeTables.TestedFlag(m.r.p, op) == (op / 32 % 2 == 1), Displaced(Following(m), CodeByte(m, 1)))
  {
    hide Handlers.HandlerOf, ModeOf, Address, Following, BitMask, Bus.Read, Taken, OpcodeTables.TestedFlag, CodeByte,
         Displaced, EffectiveAddress, Decoded;
    var op := NextOpcode(m);
    OpcodeTables.BranchGroup(m.variant, op, m.r.p, Bus.Read(m.bus, Address(m)), BitMask(op / 0x10 % 8));
    RelativeTarget(m);
    OpcodeTables.HandlerDecoded(m.variant, op);
  }

  lemma ConditionalBranchStep(m: Machine)
    requires Dispatches(m) && NextOpcode(m) % 32 == 0x10
    ensures var op := NextOpcode(m);
            BranchesTo(m, Step(m), OpcodeTables.TestedFlag(m.r.p, op) == (op / 32 % 2 == 1),
                       Displaced(Following(m), CodeByte(m, 1)))
  {
    hide Step, IsBranch, Displaced, CodeByte, Following, OpcodeTables.TestedFlag, NextOpcode, Dispatches, BranchesTo;
    ConditionalBranch(m);
    var op := NextOpcode(m);
    BranchFollows(m, OpcodeTables.TestedFlag(m.r.p, op) == (op / 32 % 2 == 1), Displaced(Following(m), CodeByte(m, 1)));
  }

  /** BRA, on either variant. */
  lemma AlwaysBranch(m: Machine)
    requires NextOpcode(m) == 0x80
    ensures IsBranch(m, true, Displaced(Following(m), CodeByte(m, 1)))
  {
    hide Handlers.HandlerOf, ModeOf, Address, Following, BitMask, Bus.Read, CodeByte, Displaced, EffectiveAddress, Decoded;
    OpcodeTables.HandlerDecoded(m.variant, 0x80);
    OpcodeTables.ModeDecoded(m.variant, 0x80);
    RelativeTarget(m);
  }

  /** BBR and BBS: taken iff bit `op / 16 % 8` of the byte in page 0 is clear below $80 and set from $80 on. */
  lemma BitBranch(m: Machine)
    requires m.variant == CMOS && NextOpcode(m) % 16 == 0x0F
    ensures var op, byte := NextOpcode(m), Bus.Read(m.bus, CodeByte(m, 1));
            IsBranch(m, Bit(byte, op / 16 % 8) == (op >= 0x80), Displaced(Following(m), CodeByte(m, 2)))
  {
    hide Handlers.HandlerOf, ModeOf, Address, Following, BitMask, Bus.Read, CodeByte, Displaced, EffectiveAddress, Decoded,
         And8, Bit, Low16;
    var op := NextOpcode(m);
    BitBranchOpcode(op);
    DirectModes(m);
    BitBranchTarget(m);
    MaskedIsZero(Bus.Read(m.bus, CodeByte(m, 1)), op / 16 % 8);
  }

  /** A branch of either kind goes where it says. */
  lemma BranchFollows(m: Machine, taken: bool, target: uint16)
    requires Dispatches(m) && IsBranch(m, taken, target)
    ensures BranchesTo(m, Step(m), taken, target)
  {
    hide NextHandler, Step, BranchGoal, TakesBranch, Following, Dispatches, BranchesTo, NextMode;
    BranchStep(m, NextHandler(m).branch);
  }

  lemma BitBranchStep(m: Machine)
    requires Dispatches(m) && m.variant == CMOS && NextOpcode(m) % 16 == 0x0F
    ensures var op, byte := NextOpcode(m), Bus.Read(m.bus, CodeByte(m, 1));
            BranchesTo(m, Step(m), Bit(byte, op / 16 % 8) == (op >= 0x80), Displaced(Following(m), CodeByte(m, 2)))
  {
    hide Step, IsBranch, Displaced, CodeByte, Following, Bus.Read, NextOpcode, Dispatches, BranchesTo, Bit;
    BitBranch(m);
    var op, byte := NextOpcode(m), Bus.Read(m.bus, CodeByte(m, 1));
    BranchFollows(m, Bit(byte, op / 16 % 8) == (op >= 0x80), Displaced(Following(m), CodeByte(m, 2)));
  }

  lemma BitBranchBits(a: nat, b: nat)
    requires a < 8 && b < 8 && b % 4 == 3
    ensures OpcodeBits.HandlerByBits(CMOS, a, b, 3) == Bra(if a >= 4 then BBS else BBR)
    ensures OpcodeBits.ModeByBits(CMOS, a, b, 3) == ZpRel
  {
  }

  lemma BitBranchOpcode(op: uint8)
    requires op % 16 == 0x0F
    ensures Handlers.HandlerOf(CMOS, op) == Bra(if op >= 0x80 then BBS else BBR) && ModeOf(CMOS, op) == ZpRel
  {
    hide Handlers.HandlerOf, ModeOf, OpcodeBits.HandlerByBits, OpcodeBits.ModeByBits;
    var a, b := op / 32, op / 4 % 8;
    assert b % 4 == 3 && op % 4 == 3 && (a >= 4 <==> op >= 0x80);
    OpcodeTables.HandlerDecoded(CMOS, op);
    OpcodeTables.ModeDecoded(CMOS, op);
    BitBranchBits(a, b);
  }

  /** A register instruction that leaves I alone is followed by a dispatch: nothing became due. */
  lemma StillDispatches(m: Machine, op: RegisterOp)
    requires Runs(m, Reg(op)) && Step(m).r.p.i == m.r.p.i
    ensures Dispatches(Step(m))
  {
    hide NextMode, Step, Handlers.HandlerOf, Decode, Fetch, Bus.AgreeOutside, KeepsControl, KeepsFlags;
    DecodeEffect(NextMode(m), Polled(m));
    StepDispatch(m);
    StepController(m);
  }

  /** CMP, CPX or CPY and then a branch: BCS on register >= operand, BCC on less, BEQ on equal, BNE on different. */
  lemma CompareThenBranch(m: Machine, op: RegisterOp)
    requires Runs(m, Reg(op)) && (op.CMP? || op.CPX? || op.CPY?)
    requires NextOpcode(Step(m)) in {0x90, 0xB0, 0xD0, 0xF0}
    ensures var n, v, register := Step(m), Operand(m), if op.CMP? then m.r.a else if op.CPX? then m.r.x else m.r.y;
            var taken := match NextOpcode(n) { case 0xB0 => register >= v case 0x90 => register < v
                                               case 0xF0 => register == v case _ => register != v };
            BranchesTo(n, Step(n), taken, Displaced(Following(n), CodeByte(n, 1)))
  {
    hide NextHandler, Step, Operand, Following, CodeByte, Displaced, NextOpcode, Dispatches;
    assert Dispatches(m) by { RunsDispatches(m, Reg(op)); }
    CompareStep(m, op);
    StillDispatches(m, op);
    ConditionalBranchStep(Step(m));
  }

  lemma RunsDispatches(m: Machine, h: Handler)
    requires Runs(m, h)
    ensures Dispatches(m)
  {
  }

  /** A load and then BMI or BPL: taken by bit 7 of the byte loaded. */
  lemma LoadThenBranch(m: Machine, op: RegisterOp)
    requires Runs(m, Reg(op)) && (op.LDA? || op.LDX? || op.LDY?)
    requires NextOpcode(Step(m)) in {0x10, 0x30, 0xD0, 0xF0}
    ensures var n, v := Step(m), Operand(m);
            var taken := match NextOpcode(n) { case 0x30 => Bit(v, 7) case 0x10 => !Bit(v, 7)
                                               case 0xF0 => v == 0 case _ => v != 0 };
            BranchesTo(n, Step(n), taken, Displaced(Following(n), CodeByte(n, 1)))
  {
    hide NextHandler, Step, Operand, Following, CodeByte, Displaced, NextOpcode, Dispatches, Bit;
    LoadStep(m, op);
    StillDispatches(m, op);
    ConditionalBranchStep(Step(m));
    SixthBit(Operand(m));
  }

  /** SEC and SBC with D clear and then BVS or BVC: taken by whether the signed difference fits in a byte. */
  lemma SubtractThenBranch(m: Machine)
    requires Runs(m, Reg(SEC)) && !m.r.p.d
    requires var n := Step(m); NextHandler(n) == Reg(SBC) && NextOpcode(Step(n)) in {0x50, 0x70}
    ensures var n := Step(m);
            var t, fits := Step(n), -0x80 <= Signed8(m.r.a) - Signed8(Operand(n)) < 0x80;
            BranchesTo(t, Step(t), if NextOpcode(t) == 0x70 then !fits else fits, Displaced(Following(t), CodeByte(t, 1)))
  {
    hide NextHandler, Step, Operand, Following, CodeByte, Displaced, NextOpcode, Dispatches, Signed8;
    var n := Step(m);
    FlagStep(m, SEC);
    StillDispatches(m, SEC);
    SubtractStep(n, SBC);
    StillDispatches(n, SBC);
    ConditionalBranchStep(Step(n));
  }

  /** A jump goes to its address and changes nothing else. */
  lemma JumpStep(m: Machine)
    requires Runs(m, JMP)
    ensures Step(m).bus == m.bus && Step(m).r == m.r.(pc := Address(m))
  {
    hide NextHandler, NextMode, Decode, Fetch, Step, Address, Following;
    StepIsHandler(m);
    FetchedState(m);
    assert Low16(Address(m)) == Address(m);
  }

  lemma CallRegisters(m: Machine)
    ensures ExecJsr(m).r == m.r.(pc := m.latch.ea, s := (m.r.s - 2) % 0x100)
    ensures Exec(JSR, m) == ExecJsr(m)
  {
    hide Bus.Write, HighByte, LowByte;
    assert Low16(m.latch.ea) == m.latch.ea;
  }

  lemma CallOpcode(variant: Variant)
    ensures Handlers.HandlerOf(variant, 0x20) == JSR && ModeOf(variant, 0x20) == Abs
  {
    hide Handlers.HandlerOf, ModeOf;
    OpcodeTables.HandlerDecoded(variant, 0x20);
    OpcodeTables.ModeDecoded(variant, 0x20);
  }

  /** A call goes to the operand word, with S two bytes lower. */
  lemma CallStep(m: Machine)
    requires Dispatches(m) && NextOpcode(m) == 0x20
    ensures Step(m).r == m.r.(pc := CodeWord(m), s := (m.r.s - 2) % 0x100)
  {
    hide Handlers.HandlerOf, ModeOf, Decoded, Step, Address, Following, CodeWord, EffectiveAddress, ExecJsr, Exec;
    CallOpcode(m.variant);
    StepIsHandler(m);
    FetchedState(m);
    DirectModes(m);
    CallRegisters(Decoded(m));
  }

  /** The byte `k` slots above S. */
  function PulledByte(m: Machine, k: nat): uint8 {
    Bus.Read(m.bus, 0x0100 + (m.r.s + k) % 0x100)
  }

  lemma ReturnRegisters(m: Machine)
    ensures var t := ExecRti(m);
            && t.bus == m.bus
            && t.r == m.r.(pc := PulledByte(m, 2) + 0x100 * PulledByte(m, 3), s := (m.r.s + 3) % 0x100, p := t.r.p)
            && SaysFlags(PulledByte(m, 1), t.r.p) && !t.r.p.b && !t.r.p.u
    ensures Exec(RTI, m) == ExecRti(m)
  {
    hide Bus.Read, Unpack, Bit, Low8;
    Upwards(m.r.s);
    UnpackBits(PulledByte(m, 1));
  }

  lemma ReturnOpcode(variant: Variant)
    ensures Handlers.HandlerOf(variant, 0x40) == RTI
  {
    hide Handlers.HandlerOf;
    OpcodeTables.HandlerDecoded(variant, 0x40);
  }

  /** RTI takes the flags from the byte above S, B and U clear, and PC from the two above, low byte first. */
  lemma ReturnStep(m: Machine)
    requires Dispatches(m) && NextOpcode(m) == 0x40
    ensures var t := Step(m);
            && t.bus == m.bus
            && t.r == m.r.(pc := PulledByte(m, 2) + 0x100 * PulledByte(m, 3), s := (m.r.s + 3) % 0x100, p := t.r.p)
            && SaysFlags(PulledByte(m, 1), t.r.p) && !t.r.p.b && !t.r.p.u
  {
    hide Handlers.HandlerOf, ModeOf, Decoded, Step, Address, Following, EffectiveAddress, Bus.Read, Bit, ExecRti, Exec;
    ReturnOpcode(m.variant);
    StepIsHandler(m);
    FetchedState(m);
    ReturnRegisters(Decoded(m));
  }

  lemma Upwards(s: uint8)
    ensures Low8(s + 1) == (s + 1) % 0x100
    ensures Low8(Low8(s + 1) + 1) == (s + 2) % 0x100
    ensures Low8(Low8(Low8(s + 1) + 1) + 1) == (s + 3) % 0x100
  {
  }

  /** The handlers taken for NOPs only go on; WAI, STP and KIL besides halt the CPU. */
  lemma IdleHandlerStep(m: Machine, h: Handler)
    requires Runs(m, h) && (h.NOP? || h.NOPREAD? || h.ILLEGAL? || h.WAI? || h.STP? || h.KIL?)
    ensures var t := Step(m);
            && t.bus == m.bus && t.r == m.r.(pc := Following(m))
            && t.waiting == h.WAI? && t.stopped == (h.STP? || h.KIL?)
  {
    hide NextHandler, NextMode, Decode, Fetch, Step, Address, Following;
    StepIsHandler(m);
    FetchedState(m);
    DecodeEffect(NextMode(m), Polled(m));
  }

  /** Instructions are one, two or three bytes long. */
  lemma InstructionLength(m: Machine)
    ensures Following(m) == (m.r.pc + match NextMode(m) {
              case Implied | Acc => 1
              case Abs | AbsX | AbsY | Ind | AbsIndX | ZpRel => 3
              case _ => 2 }) % 0x1_0000
  {
    hide NextMode;
  }

  lemma AdcOpcode(variant: Variant, op: uint8)
    requires (op % 4 == 1 && op / 32 == 3) || (op == 0x72 && variant == CMOS)
    ensures Handlers.HandlerOf(variant, op) == Reg(ADC) && (op == 0x69 ==> ModeOf(variant, op) == Imm)
  {
    hide Handlers.HandlerOf, ModeOf;
    OpcodeTables.HandlerDecoded(variant, op);
    OpcodeTables.ModeDecoded(variant, op);
  }

  /** ADC read off the opcode: row 3 of the accumulator column, and (zp) on CMOS; with D clear A is the sum modulo 256. */
  lemma AdcOpcodeStep(m: Machine)
    requires Dispatches(m) && !m.r.p.d
    requires var op := NextOpcode(m); (op % 4 == 1 && op / 32 == 3) || (op == 0x72 && m.variant == CMOS)
    ensures Step(m).r.a == (m.r.a + Operand(m) + if m.r.p.c then 1 else 0) % 0x100
    ensures NextOpcode(m) == 0x69 ==> Operand(m) == CodeByte(m, 1)
  {
    hide Handlers.HandlerOf, ModeOf, Step, Operand, Following, CodeByte, Signed8;
    AdcOpcode(m.variant, NextOpcode(m));
    AddStep(m);
    DirectModes(m);
  }

  /** After a reset: PC from $FFFC, registers 0 but for S, only I and U set, running, 7 cycles later. */
  lemma ResetState(m: Machine)
    ensures var t := Reset(m);
            && t.r.pc == Bus.Read(m.bus, 0xFFFC) + 0x100 * Bus.Read(m.bus, 0xFFFD)
            && t.r.a == t.r.x == t.r.y == 0 && t.r.s == 0xFD
            && t.r.p == Status(false, false, true, false, false, true, false, false)
            && !t.waiting && !t.stopped && t.bus == m.bus && t.ic == m.ic
            && t.cycles == (m.cycles + 7) % 0x1_0000_0000
  {
    hide Bus.Read;
    ResetStatus();
  }
}
