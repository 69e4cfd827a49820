/** An NMOS and a CMOS machine running the same portable program stay in lock step. */
module Lockstep {
  import opened Types
  import opened StatusRegister
  import opened InterruptController
  import opened MachineState
  import opened Stack
  import opened Addressing
  import opened Arithmetic
  import opened Instructions
  import opened Cpu
  import opened StepEffects
  import opened Runs
  import Interrupts
  import Handlers
  import Cycles
  import Bus

  /** No variant table mentions the opcode. */
  predicate Untouched(op: uint8) {
    Handlers.NmosOverride(op).None? && NmosMode(op).None? && CmosMode(op).None? && CmosCycles(op).None?
  }

  lemma TablesAgree(op: uint8)
    requires Untouched(op)
    ensures Handlers.HandlerOf(NMOS, op) == Handlers.HandlerOf(CMOS, op)
    ensures ModeOf(NMOS, op) == ModeOf(CMOS, op)
    ensures CyclesOf(NMOS, op) == CyclesOf(CMOS, op)
  {
    hide Handlers.NmosOverride, Handlers.CmosHandler, NmosMode, CmosMode, CmosCycles, CycleBase;
  }

  predicate IsArithmetic(h: Handler) {
    match h
    case Reg(op) => op.ADC? || op.SBC? || op.USBC?
    case Mem(op) => op.ISC? || op.RRA?
    case _ => false
  }

  /** The next step looks the same on both parts: untouched opcode, no decimal arithmetic, no decimal mode
      at an interrupt, no indirect pointer in the last byte of a page. */
  predicate Portable(m: Machine) {
    && (Due(m) != NoInterrupt ==> !m.r.p.d)
    && (Dispatches(m) ==>
          && Untouched(NextOpcode(m))
          && (IsArithmetic(NextHandler(m)) || NextHandler(m).BRK? ==> !m.r.p.d)
          && (NextMode(m).Ind? ==> Operand16(Fetch(m)) % 0x100 != 0xFF))
  }

  /** The CMOS machine in the same state, some cycles ahead. */
  function Twin(m: Machine, ahead: nat): Machine {
    m.(variant := CMOS, cycles := Low32(m.cycles + ahead))
  }

  lemma ChargeTwin(m: Machine, ahead: nat, n: nat)
    ensures WithCycles(Twin(m, ahead), n) == Twin(WithCycles(m, n), ahead)
    ensures Twin(WithCycles(m, n), ahead) == Twin(m, ahead + n)
  {
    hide Low32;
    Cycles.Low32Adds(m.cycles + ahead, n);
    Cycles.Low32Adds(m.cycles + n, ahead);
  }

  lemma FetchTwin(m: Machine, ahead: nat)
    requires m.variant == NMOS && Untouched(NextOpcode(m))
    ensures Fetch(Twin(m, ahead)) == Twin(Fetch(m), ahead) && Fetch(m).variant == NMOS
  {
    hide CyclesOf, Low32, Low16, Untouched, Bus.Read, ModeOf, Handlers.HandlerOf;
    var op := NextOpcode(m);
    TablesAgree(op);
    ChargeTwin(WithPc(m, m.r.pc + 1).(latch := m.latch.(opcode := op)), ahead, CyclesOf(NMOS, op));
  }

  lemma DecodeTwin(mode: Mode, m: Machine, ahead: nat)
    requires m.variant == NMOS
    requires mode.Ind? ==> Operand16(m) % 0x100 != 0xFF
    ensures Decode(mode, Twin(m, ahead)) == Twin(Decode(mode, m), ahead)
  {
    hide Low32, Low16, Low8;
  }

  lemma ServiceTwin(m: Machine, ahead: nat, kind: InterruptType)
    requires m.variant == NMOS && kind != NoInterrupt && !m.r.p.d
    ensures Interrupts.Service(Twin(m, ahead), kind) == Twin(Interrupts.Service(m, kind), ahead)
  {
    hide Low32, Record, Interrupts.Service, Interrupts.PushFrame, Bus.Read16, Bus.AgreeOutside, Pack;
    ServiceEffect(m, kind);
    ServiceEffect(Twin(m, ahead), kind);
    PushFrameEffect(m, Twin(m, ahead), kind);
    ChargeTwin(m, ahead, if kind == Brk then 0 else 7);
    ChargeTwin(m, ahead, 0);
  }

  lemma ArithmeticTwin(a: uint8, v: uint8, p: Status)
    requires !p.d
    ensures Adc(NMOS, a, v, p) == Adc(CMOS, a, v, p) && Sbc(NMOS, a, v, p) == Sbc(CMOS, a, v, p)
  {
  }

  lemma RegisterTwin(op: RegisterOp, opcode: uint8, r: Registers, data: uint8)
    requires op.ADC? || op.SBC? || op.USBC? ==> !r.p.d
    ensures RegisterResult(op, NMOS, opcode, r, data) == RegisterResult(op, CMOS, opcode, r, data)
  {
    hide Adc, Sbc, LoadA, LoadX, LoadY, And8, Or8, Xor8, Low8, BitFlags, RotateArr, CompareFlags, ShiftFlags, Shift;
    if !r.p.d {
      ArithmeticTwin(r.a, data, r.p);
    }
  }

  lemma MemoryTwin(op: MemoryOp, mask: uint8, r: Registers, byte: uint8)
    requires op.ISC? || op.RRA? ==> !r.p.d
    ensures MemoryResult(op, NMOS, mask, r, byte) == MemoryResult(op, CMOS, mask, r, byte)
  {
    hide Adc, Sbc, And8, Or8, Xor8, Low8, CompareFlags, Fused;
    if !r.p.d {
      ArithmeticTwin(r.a, Low8(byte + 1), r.p);
      var s := Shift(Right, byte, Carry(r.p));
      ArithmeticTwin(r.a, s.value, r.p.(c := s.carry));
    }
  }

  function JumpsIndirect(h: Handler, m: Machine): nat {
    if h.JMP? && m.latch.opcode == 0x6C then 1 else 0
  }

  lemma ExecTwin(h: Handler, m: Machine, ahead: nat)
    requires m.variant == NMOS
    requires IsArithmetic(h) || h.BRK? ==> !m.r.p.d
    ensures Exec(h, Twin(m, ahead)) == Twin(Exec(h, m), ahead + JumpsIndirect(h, m))
  {
    hide RegisterResult, MemoryResult, ExecShift, ExecBranch, ExecPull, ExecJsr, ExecRts, ExecRti, Push8,
         Interrupts.Service, Low32, Bus.Write;
    match h
    case Reg(op) => RegisterTwin(op, m.latch.opcode, m.r, Data(m));
    case Mem(op) => MemoryTwin(op, OpcodeMask(m.latch), m.r, Target(m));
    case BRK => ServiceTwin(m, ahead, Brk);
    case JMP =>
      ChargeTwin(WithPc(m, m.latch.ea), ahead, JumpsIndirect(h, m));
      ChargeTwin(WithPc(m, m.latch.ea), ahead + JumpsIndirect(h, m), 0);
    case Shf(op) => ShiftTwin(op, m, ahead);
    case Bra(op) => BranchTwin(op, m, ahead);
    case Psh(op) => PushTwin(op, m, ahead);
    case Pul(op) => PullTwin(op, m, ahead);
    case JSR => CallTwin(m, ahead);
    case RTS => CallTwin(m, ahead);
    case RTI => ReturnTwin(m, ahead);
    case _ =>
  }

  lemma ShiftTwin(op: ShiftOp, m: Machine, ahead: nat)
    ensures ExecShift(op, Twin(m, ahead)) == Twin(ExecShift(op, m), ahead)
  {
    hide Low32, ShiftResult, Bus.Write, ShiftFlags;
  }

  lemma BranchTwin(op: BranchOp, m: Machine, ahead: nat)
    ensures ExecBranch(op, Twin(m, ahead)) == Twin(ExecBranch(op, m), ahead)
  {
    hide Low32, Taken, Low16, SamePage;
  }

  lemma PushTwin(op: PushOp, m: Machine, ahead: nat)
    ensures Push8(Twin(m, ahead), PushedByte(op, m.r)) == Twin(Push8(m, PushedByte(op, m.r)), ahead)
  {
    hide Low32, PushedByte, Bus.Write;
  }

  lemma PullTwin(op: PullOp, m: Machine, ahead: nat)
    ensures ExecPull(op, Twin(m, ahead)) == Twin(ExecPull(op, m), ahead)
  {
    hide Low32, PullResult, Bus.Read;
  }

  lemma CallTwin(m: Machine, ahead: nat)
    ensures ExecJsr(Twin(m, ahead)) == Twin(ExecJsr(m), ahead)
    ensures ExecRts(Twin(m, ahead)) == Twin(ExecRts(m), ahead)
  {
    hide Low32, Low16, Bus.Write, Bus.Read;
  }

  lemma ReturnTwin(m: Machine, ahead: nat)
    ensures ExecRti(Twin(m, ahead)) == Twin(ExecRti(m), ahead)
  {
    hide Low32, Low16, Unpack, Bus.Read;
  }

  /** How far a step moves the CMOS machine ahead: one cycle for an indirect jump. */
  function Drift(m: Machine): nat {
    if Dispatches(m) && NextOpcode(m) == 0x6C then 1 else 0
  }

  lemma OnlyOpcode6CJumpsIndirect(m: Machine)
    requires Dispatches(m) && m.variant == NMOS
    ensures JumpsIndirect(NextHandler(m), Decoded(m)) == Drift(m)
  {
    hide NextMode, Step, Resolve, Low32;
    DecodeEffect(NextMode(m), Polled(m));
  }

  lemma StepTwin(m: Machine, ahead: nat)
    requires m.variant == NMOS && Portable(m)
    ensures Step(Twin(m, ahead)) == Twin(Step(m), ahead + Drift(m))
  {
    hide Low32, Interrupts.Service, Exec, Decode, Fetch, Untouched, Handlers.HandlerOf, ModeOf, Operand16, Penalty;
    var p := Polled(m);
    assert Polled(Twin(m, ahead)) == Twin(p, ahead);
    if Due(m) != NoInterrupt {
      ServiceTwin(p, ahead, Due(m));
    } else if Dispatches(m) {
      TablesAgree(NextOpcode(m));
      FetchPolled(m);
      FetchTwin(p, ahead);
      DecodeTwin(NextMode(m), Fetch(p), ahead);
      DecodeEffect(NextMode(m), p);
      ExecTwin(NextHandler(m), Decoded(m), ahead);
      OnlyOpcode6CJumpsIndirect(m);
      ChargeTwin(Executed(m), ahead + Drift(m), Penalty(Executed(m).latch));
    }
  }

  lemma FetchPolled(m: Machine)
    ensures Operand16(Fetch(Polled(m))) == Operand16(Fetch(m))
  {
  }

  lemma ApplyTwin(m: Machine, e: Stimulus, ahead: nat)
    requires m.variant == NMOS && (e == Tick ==> Portable(m))
    ensures Apply(Twin(m, ahead), e) == Twin(Apply(m, e), ahead + if e == Tick then Drift(m) else 0)
    ensures Apply(m, e).variant == NMOS
  {
    hide Low32, Step, Portable, Unpack, Bus.Read16;
    match e
    case Tick =>
      StepTwin(m, ahead);
      StepVariant(m);
    case PowerReset =>
      var cleared := m.(r := Reset(m).r, waiting := false, stopped := false);
      ChargeTwin(cleared, ahead, 7);
    case _ =>
  }

  /** Every step of the NMOS run is portable. */
  predicate PortableRun(m: Machine, run: seq<Stimulus>)
    decreases run
  {
    run == [] || ((run[0] == Tick ==> Portable(m)) && PortableRun(Apply(m, run[0]), run[1..]))
  }

  /** Indirect jumps the run executes. */
  function IndirectJumps(m: Machine, run: seq<Stimulus>): nat
    decreases run
  {
    if run == [] then 0
    else (if run[0] == Tick then Drift(m) else 0) + IndirectJumps(Apply(m, run[0]), run[1..])
  }

  /** Registers, memory, interrupt state and latches stay equal throughout; the cycle counters differ by exactly
      the number of indirect jumps, modulo 2^32. */
  lemma {:induction false} RunsInLockstep(m: Machine, run: seq<Stimulus>, ahead: nat)
    requires m.variant == NMOS && PortableRun(m, run)
    ensures Run(Twin(m, ahead), run) == Twin(Run(m, run), ahead + IndirectJumps(m, run))
    decreases run
  {
    hide Twin, Apply, Portable, Drift;
    if run != [] {
      var drift := if run[0] == Tick then Drift(m) else 0;
      ApplyTwin(m, run[0], ahead);
      RunsInLockstep(Apply(m, run[0]), run[1..], ahead + drift);
    }
  }

  /** The same statement for two machines that start equal but for the variant. */
  lemma VariantsAgree(nmos: Machine, cmos: Machine, run: seq<Stimulus>)
    requires nmos.variant == NMOS && cmos == nmos.(variant := CMOS)
    requires PortableRun(nmos, run)
    ensures var n, c := Run(nmos, run), Run(cmos, run);
            && c.r == n.r && c.bus == n.bus && c.ic == n.ic && c.waiting == n.waiting && c.stopped == n.stopped
            && Low32(c.cycles - n.cycles) == Low32(IndirectJumps(nmos, run))
  {
    hide Run, IndirectJumps, PortableRun;
    assert cmos == Twin(nmos, 0);
    RunsInLockstep(nmos, run, 0);
    var n: int := Run(nmos, run).cycles;
    Cycles.Low32Adds(n + IndirectJumps(nmos, run), -n);
  }
}
