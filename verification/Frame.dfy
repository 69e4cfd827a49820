/** What each handler leaves alone: the facts every whole-run argument rests on. */
module Frame {
  import opened Types
  import opened StatusRegister
  import opened InterruptController
  import opened MachineState
  import opened Stack
  import opened Arithmetic
  import opened Instructions
  import Interrupts
  import Bus

  predicate StoresEa(h: Handler, hasEa: bool) {
    h.Mem? || (h.Shf? && hasEa)
  }

  /** Bytes the handler pushes. */
  function PushCount(h: Handler): nat {
    match h
    case Psh(_) => 1
    case JSR => 2
    case BRK => 3
    case _ => 0
  }

  /** Bytes the handler pulls. */
  function PullCount(h: Handler): nat {
    match h
    case Pul(_) => 1
    case RTS => 2
    case RTI => 3
    case _ => 0
  }

  predicate Jumps(h: Handler) {
    h.JMP? || h.JSR? || h.RTS? || h.RTI? || h.BRK?
  }

  predicate MayUnmask(h: Handler) {
    match h
    case Reg(op) => op.CLI?
    case Pul(op) => op.PLP?
    case _ => h.RTI?
  }

  predicate Halts(h: Handler) {
    h.STP? || h.KIL?
  }

  /** The `count` slots a push sequence starting at S fills. */
  function SlotsBelow(s: uint8, count: nat): set<uint16>
    decreases count
  {
    if count == 0 then {} else {Slot(s)} + SlotsBelow(Low8(s - 1), count - 1)
  }

  function Written(h: Handler, m: Machine): set<uint16> {
    if StoresEa(h, m.latch.hasEa) then {m.latch.ea} else SlotsBelow(m.r.s, PushCount(h))
  }

  /** Extra cycle of the indirect jump on CMOS. */
  function JumpCycle(h: Handler, m: Machine): nat {
    if h.JMP? && m.variant == CMOS && m.latch.opcode == 0x6C then 1 else 0
  }

  /** PC moves only by a jump or a taken branch, which leaves its mark in the latch. */
  predicate KeepsControl(h: Handler, m: Machine, t: Machine) {
    && t.latch == m.latch.(branchTaken := t.latch.branchTaken, branchPageCross := t.latch.branchPageCross)
    && (t.latch == m.latch || (h.Bra? && t.latch.branchTaken))
    && (t.latch == m.latch && !Jumps(h) ==> t.r.pc == m.r.pc)
  }

  predicate KeepsFlags(h: Handler, p: Status, q: Status) {
    && (!p.b ==> !q.b)
    && (p.i && !q.i ==> MayUnmask(h))
  }

  ghost predicate Framed(h: Handler, m: Machine, t: Machine) {
    && t.variant == m.variant
    && t.ic == m.ic
    && t.waiting == (m.waiting || h.WAI?)
    && t.stopped == (m.stopped || Halts(h))
    && t.cycles == Low32(m.cycles + JumpCycle(h, m))
    && KeepsControl(h, m, t)
    && KeepsFlags(h, m.r.p, t.r.p)
    && (!(h.Reg? && h.register.TXS?) ==> t.r.s == Low8(m.r.s - PushCount(h) + PullCount(h)))
    && Bus.AgreeOutside(m.bus, t.bus, Written(h, m))
  }

  /** Arithmetic touches N, V, Z and C only. */
  lemma AluFlags(variant: Variant, a: uint8, v: uint8, p: Status)
    ensures var q := Adc(variant, a, v, p).p; q == p.(n := q.n, v := q.v, z := q.z, c := q.c)
    ensures var q := Sbc(variant, a, v, p).p; q == p.(n := q.n, v := q.v, z := q.z, c := q.c)
  {
    hide AddOverflows, SubtractOverflows, AddLowDigit, AddHighDigit, SubtractLowDigit, SubtractHighDigit;
  }

  predicate KeepsRegisters(op: RegisterOp, r: Registers, t: Registers) {
    t.pc == r.pc && KeepsFlags(Reg(op), r.p, t.p) && (!op.TXS? ==> t.s == r.s)
  }

  predicate Calculates(op: RegisterOp) {
    match op
    case AND | ORA | EOR | ADC | SBC | USBC | CMP | CPX | CPY | BIT | ANC | ALR | ARR => true
    case _ => false
  }

  lemma BitFlagsKeep(p: Status, a: uint8, data: uint8, opcode: uint8)
    ensures var q := BitFlags(p, a, data, opcode); q == p.(n := q.n, v := q.v, z := q.z)
  {
    hide And8, Bit7;
  }

  lemma RotateArrKeeps(r: Registers, data: uint8)
    ensures var t := RotateArr(r, data);
            t == r.(a := t.a, p := r.p.(n := t.p.n, v := t.p.v, z := t.p.z, c := t.p.c))
  {
    hide And8, Bit7, Shift;
  }

  lemma CalculationFramed(op: RegisterOp, variant: Variant, opcode: uint8, r: Registers, data: uint8)
    requires Calculates(op)
    ensures KeepsRegisters(op, r, RegisterResult(op, variant, opcode, r, data))
  {
    hide And8, Or8, Xor8, Adc, Sbc, Shift, Low8, Bit7, BitFlags, RotateArr;
    AluFlags(variant, r.a, data, r.p);
    BitFlagsKeep(r.p, r.a, data, opcode);
    RotateArrKeeps(r, data);
  }

  lemma RegisterResultFramed(op: RegisterOp, variant: Variant, opcode: uint8, r: Registers, data: uint8)
    ensures KeepsRegisters(op, r, RegisterResult(op, variant, opcode, r, data))
  {
    hide And8, Or8, Xor8, Adc, Sbc, Shift, Low8, Bit7, BitFlags, RotateArr, ShiftFlags, CompareFlags, WithAlu;
    if Calculates(op) {
      CalculationFramed(op, variant, opcode, r, data);
    }
  }

  lemma MemoryResultFramed(op: MemoryOp, variant: Variant, mask: uint8, r: Registers, byte: uint8)
    ensures KeepsFlags(Mem(op), r.p, MemoryResult(op, variant, mask, r, byte).p)
  {
  }

  lemma Push16Writes(m: Machine, value: uint16)
    ensures Bus.AgreeOutside(m.bus, Push16(m, value).bus, SlotsBelow(m.r.s, 2))
  {
    var m1 := Push8(m, HighByte(value));
    var m2 := Push8(m1, LowByte(value));
    Bus.WriteAgrees(m.bus, Slot(m.r.s), HighByte(value));
    Bus.WriteAgrees(m1.bus, Slot(m1.r.s), LowByte(value));
    Bus.AgreeTransitive(m.bus, m1.bus, m2.bus, {Slot(m.r.s)}, {Slot(m1.r.s)});
    assert SlotsBelow(m.r.s, 2) == {Slot(m.r.s)} + {Slot(m1.r.s)};
  }

  lemma MemFramed(op: MemoryOp, m: Machine)
    ensures Framed(Mem(op), m, Exec(Mem(op), m))
  {
    hide MemoryResult, OpcodeMask, Bus.Write, KeepsFlags, SlotsBelow;
    var w := MemoryResult(op, m.variant, OpcodeMask(m.latch), m.r, Target(m));
    MemoryResultFramed(op, m.variant, OpcodeMask(m.latch), m.r, Target(m));
    Bus.WriteAgrees(m.bus, m.latch.ea, w.value);
  }

  lemma ShfFramed(op: ShiftOp, m: Machine)
    ensures Framed(Shf(op), m, ExecShift(op, m))
  {
    hide ShiftResult, Bus.Write, SlotsBelow, Bit7;
    var s := ShiftResult(op, m.r.p, if m.latch.hasEa then Target(m) else m.r.a);
    Bus.WriteAgrees(m.bus, m.latch.ea, s.value);
  }

  lemma BraFramed(op: BranchOp, m: Machine)
    requires !m.latch.branchTaken
    ensures Framed(Bra(op), m, ExecBranch(op, m))
  {
    hide Taken, Bus.Read, SlotsBelow;
    var taken := Taken(op, m.r.p, Target(m), OpcodeMask(m.latch));
    if taken {
    } else {
      assert ExecBranch(op, m) == m;
    }
  }

  lemma PshFramed(op: PushOp, m: Machine)
    ensures Framed(Psh(op), m, Push8(m, PushedByte(op, m.r)))
  {
    Bus.WriteAgrees(m.bus, Slot(m.r.s), PushedByte(op, m.r));
    assert SlotsBelow(m.r.s, 1) == {Slot(m.r.s)};
  }

  lemma PulFramed(op: PullOp, m: Machine)
    ensures Framed(Pul(op), m, ExecPull(op, m))
  {
    hide Unpack, Bus.Read;
  }

  lemma RegFramed(op: RegisterOp, m: Machine)
    ensures Framed(Reg(op), m, Exec(Reg(op), m))
  {
    hide RegisterResult, Bus.Write;
    RegisterResultFramed(op, m.variant, m.latch.opcode, m.r, Data(m));
  }

  lemma JmpFramed(m: Machine)
    ensures Framed(JMP, m, ExecJmp(m))
  {
  }

  lemma JsrFramed(m: Machine)
    ensures Framed(JSR, m, ExecJsr(m))
  {
    hide Bus.Write, SlotsBelow;
    Push16Writes(m, Low16(m.r.pc - 1));
  }

  lemma RtsFramed(m: Machine)
    ensures Framed(RTS, m, ExecRts(m))
  {
  }

  lemma ThreeUp(s: uint8)
    ensures Low8(Low8(Low8(s + 1) + 1) + 1) == Low8(s - 0 + 3)
  {
  }

  lemma RtiFramed(m: Machine)
    ensures Framed(RTI, m, ExecRti(m))
  {
    hide Unpack, Bus.Read, Low8, Low16, Word;
    ThreeUp(m.r.s);
  }

  lemma QuietFramed(h: Handler, m: Machine)
    requires h.NOP? || h.NOPREAD? || h.ILLEGAL? || h.WAI? || h.STP? || h.KIL?
    ensures Framed(h, m, Exec(h, m))
  {
    hide RegisterResult, MemoryResult, ExecShift, ExecBranch, ExecPull, Push8, Pop8, Interrupts.Service;
  }

  lemma ExecFramed(h: Handler, m: Machine)
    requires h != BRK && !m.latch.branchTaken
    ensures Framed(h, m, Exec(h, m))
  {
    match h
    case Reg(op) => RegFramed(op, m);
    case Mem(op) => MemFramed(op, m);
    case Shf(op) => ShfFramed(op, m);
    case Bra(op) => BraFramed(op, m);
    case Psh(op) => PshFramed(op, m);
    case Pul(op) => PulFramed(op, m);
    case JMP => JmpFramed(m);
    case JSR => JsrFramed(m);
    case RTS => RtsFramed(m);
    case RTI => RtiFramed(m);
    case _ => QuietFramed(h, m);
  }
}
