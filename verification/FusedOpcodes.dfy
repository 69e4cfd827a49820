/** The fused undocumented opcodes are their two documented halves, as long as the store takes effect. */
module FusedOpcodes {
  import opened Types
  import opened StatusRegister
  import opened MachineState
  import opened Arithmetic
  import opened Instructions
  import Bus

  predicate IsFused(op: MemoryOp) {
    op.SLO? || op.RLA? || op.SRE? || op.RRA? || op.DCP? || op.ISC?
  }

  function FirstHalf(op: MemoryOp): Handler
    requires IsFused(op)
  {
    match op
    case SLO => Shf(ASL)
    case RLA => Shf(ROL)
    case SRE => Shf(LSR)
    case RRA => Shf(ROR)
    case DCP => Mem(DEC)
    case ISC => Mem(INC)
  }

  function SecondHalf(op: MemoryOp): Handler
    requires IsFused(op)
  {
    match op
    case SLO => Reg(ORA)
    case RLA => Reg(AND)
    case SRE => Reg(EOR)
    case RRA => Reg(ADC)
    case DCP => Reg(CMP)
    case ISC => Reg(SBC)
  }

  /** The byte the first half stores. */
  function Stored(op: MemoryOp, m: Machine): uint8 {
    MemoryResult(op, m.variant, OpcodeMask(m.latch), m.r, Target(m)).value
  }

  /** The second half reads what the first half stored. */
  lemma ReadsBack(m: Machine, value: uint8)
    requires Bus.Writable(m.bus, m.latch.ea)
    ensures Bus.Read(Bus.Write(m.bus, m.latch.ea, value), m.latch.ea) == value
  {
    Bus.WriteAgrees(m.bus, m.latch.ea, value);
  }

  lemma FlagsOverwritten(p: Status, q: uint8, v: uint8)
    ensures SetZN(SetZN(p, q), v) == SetZN(p, v)
    ensures forall register: uint8 :: CompareFlags(SetZN(p, q), register, v) == CompareFlags(p, register, v)
  {
  }

  lemma AdcIgnoresZN(variant: Variant, a: uint8, v: uint8, p: Status, q: uint8)
    ensures Adc(variant, a, v, SetZN(p, q)) == Adc(variant, a, v, p)
  {
    hide AddOverflows, AddLowDigit, AddHighDigit, Low8, Bit7;
  }

  lemma SbcIgnoresZN(variant: Variant, a: uint8, v: uint8, p: Status, q: uint8)
    ensures Sbc(variant, a, v, SetZN(p, q)) == Sbc(variant, a, v, p)
  {
    hide SubtractOverflows, SubtractLowDigit, SubtractHighDigit, Low8, Bit7, Not8;
  }

  lemma CountThenCompute(op: MemoryOp, m: Machine)
    requires (op.DCP? || op.ISC?) && m.latch.hasEa && Bus.Writable(m.bus, m.latch.ea)
    ensures Exec(Mem(op), m) == Exec(SecondHalf(op), Exec(FirstHalf(op), m))
  {
    hide Adc, Sbc, SetZN, CompareFlags, Bus.Write, Bus.Read, OpcodeMask, Low8, Bus.Writable;
    var v := Stored(op, m);
    ReadsBack(m, v);
    FlagsOverwritten(m.r.p, v, v);
    SbcIgnoresZN(m.variant, m.r.a, v, m.r.p, v);
  }

  predicate IsFusedShift(op: MemoryOp) {
    op.SLO? || op.RLA? || op.SRE? || op.RRA?
  }

  /** The machine between the two halves of a fused shift. */
  function Between(op: MemoryOp, m: Machine): Machine
    requires IsFusedShift(op)
  {
    var s := ShiftResult(FirstHalf(op).shift, m.r.p, Target(m));
    m.(r := m.r.(p := SetZN(m.r.p.(c := s.carry), s.value)), bus := Bus.Write(m.bus, m.latch.ea, s.value))
  }

  lemma ShiftHalf(op: MemoryOp, m: Machine)
    requires IsFusedShift(op) && m.latch.hasEa && Bus.Writable(m.bus, m.latch.ea)
    ensures Exec(FirstHalf(op), m) == Between(op, m)
    ensures Data(Between(op, m)) == Stored(op, m) == ShiftResult(FirstHalf(op).shift, m.r.p, Target(m)).value
  {
    hide Adc, And8, Or8, Xor8, Shift, SetZN, Bus.Write, Bus.Read, OpcodeMask, Bus.Writable;
    ReadsBack(m, Stored(op, m));
  }

  /** The second half on registers alone. */
  lemma SecondHalfRegisters(op: MemoryOp, variant: Variant, mask: uint8, opcode: uint8, r: Registers, byte: uint8)
    requires IsFusedShift(op)
    ensures var s := ShiftResult(FirstHalf(op).shift, r.p, byte);
            var w := MemoryResult(op, variant, mask, r, byte);
            w.value == s.value &&
            RegisterResult(SecondHalf(op).register, variant, opcode, r.(p := SetZN(r.p.(c := s.carry), s.value)), s.value)
            == r.(a := w.a, p := w.p)
  {
    hide Adc, And8, Or8, Xor8, Shift, SetZN;
    var s := ShiftResult(FirstHalf(op).shift, r.p, byte);
    var p := r.p.(c := s.carry);
    match op
    case RRA => AdcIgnoresZN(variant, r.a, s.value, p, s.value);
    case SLO => FlagsOverwritten(p, s.value, Or8(r.a, s.value));
    case RLA => FlagsOverwritten(p, s.value, And8(r.a, s.value));
    case SRE => FlagsOverwritten(p, s.value, Xor8(r.a, s.value));
  }

  lemma ShiftThenCompute(op: MemoryOp, m: Machine)
    requires IsFusedShift(op) && m.latch.hasEa && Bus.Writable(m.bus, m.latch.ea)
    ensures Exec(Mem(op), m) == Exec(SecondHalf(op), Exec(FirstHalf(op), m))
  {
    hide MemoryResult, RegisterResult, ShiftResult, SetZN, Bus.Write, Bus.Read, OpcodeMask, Bus.Writable, ExecShift, Data;
    ShiftHalf(op, m);
    SecondHalfRegisters(op, m.variant, OpcodeMask(m.latch), m.latch.opcode, m.r, Target(m));
  }

  /** Registers, flags and memory after a fused opcode are those after its two halves, in binary and decimal mode. */
  lemma FusedIsSequence(op: MemoryOp, m: Machine)
    requires IsFused(op) && m.latch.hasEa && Bus.Writable(m.bus, m.latch.ea)
    ensures Exec(Mem(op), m) == Exec(SecondHalf(op), Exec(FirstHalf(op), m))
  {
    hide Exec;
    if op.DCP? || op.ISC? {
      CountThenCompute(op, m);
    } else {
      ShiftThenCompute(op, m);
    }
  }

  /** Flags between the two halves. */
  function BetweenFlags(op: MemoryOp, p: Status, byte: uint8): Status
    requires IsFused(op)
  {
    if op.DCP? then SetZN(p, Low8(byte - 1))
    else if op.ISC? then SetZN(p, Low8(byte + 1))
    else ShiftFlags(p, ShiftResult(FirstHalf(op).shift, p, byte))
  }

  /** Registers after the second half, when it reads `operand`. */
  function After(op: MemoryOp, m: Machine, operand: uint8): Registers
    requires IsFused(op)
  {
    RegisterResult(SecondHalf(op).register, m.variant, m.latch.opcode, m.r.(p := BetweenFlags(op, m.r.p, Target(m))), operand)
  }

  lemma FusedAfter(op: MemoryOp, m: Machine)
    requires IsFused(op)
    ensures Exec(Mem(op), m) == m.(r := After(op, m, Stored(op, m)), bus := Bus.Write(m.bus, m.latch.ea, Stored(op, m)))
  {
    hide Adc, Sbc, And8, Or8, Xor8, Shift, SetZN, CompareFlags, Low8, OpcodeMask, Bus.Write, Bus.Read;
    var v := Stored(op, m);
    if op.DCP? || op.ISC? {
      FlagsOverwritten(m.r.p, v, v);
      SbcIgnoresZN(m.variant, m.r.a, v, m.r.p, v);
    } else {
      SecondHalfRegisters(op, m.variant, OpcodeMask(m.latch), m.latch.opcode, m.r, Target(m));
    }
  }

  /** Without a store the second half reads the old byte again. */
  lemma HalvesWithoutStore(op: MemoryOp, m: Machine)
    requires IsFused(op) && m.latch.hasEa && !Bus.Writable(m.bus, m.latch.ea)
    ensures Exec(SecondHalf(op), Exec(FirstHalf(op), m)) == m.(r := After(op, m, Target(m)))
  {
    hide Adc, Sbc, And8, Or8, Xor8, Shift, SetZN, CompareFlags, Low8, OpcodeMask, Bus.Writable, Bus.Read, RegisterResult;
  }

  lemma NeutralOperands(x: uint8)
    ensures Or8(0, x) == x && And8(0xFF, x) == x && Xor8(0, x) == x
  {
    BitsOfByte(x);
    var v := x as bv8;
    assert 0 | v == v && 0xFF & v == v && 0 ^ v == v;
  }

  /** Two digits, each up to 15. */
  function Digits(byte: uint8): nat {
    10 * (byte / 0x10) + byte % 0x10
  }

  lemma AddToZero(variant: Variant, v: uint8, p: Status)
    requires p.d
    ensures var alu := Adc(variant, 0, v, p); Digits(alu.a) + 100 * Carry(alu.p) == Digits(v) + Carry(p)
  {
    hide AddOverflows, Bit7, Low8;
    var alu := Adc(variant, 0, v, p);
    var (al, carry) := AddLowDigit(0, v, Carry(p));
    var ah := AddHighDigit(0, v, carry);
    assert al + 10 * carry == v % 0x10 + Carry(p) && al < 0x10;
    assert ah % 0x10 + 10 * Carry(alu.p) == v / 0x10 + carry;
    assert alu.a / 0x10 == ah % 0x10 && alu.a % 0x10 == al;
  }

  lemma RotationChangesDigits(byte: uint8, carryIn: nat)
    requires carryIn < 2
    ensures var u := Shift(Right, byte, carryIn).value; u != byte ==> Digits(u) != Digits(byte)
  {
    hide Digits;
    var q, r := byte / 0x20, byte % 0x20;
    var half := r / 2;
    var u := Shift(Right, byte, carryIn).value;
    assert u == 0x10 * q + half + 0x80 * carryIn;
    RotatedDigits(q, half, carryIn, u);
    RotatedDigits(2 * q, r, 0, byte);
    DigitsApart(q, r, half, carryIn);
  }

  lemma DigitsApart(q: nat, r: nat, half: nat, carry: nat)
    requires q < 8 && r < 0x20 && carry < 2 && half == r / 2
    ensures 10 * (q + 8 * carry) + half == 10 * (2 * q + r / 0x10) + r % 0x10
            ==> 0x10 * q + half + 0x80 * carry == 0x20 * q + r
  {
  }

  lemma RotatedDigits(q: nat, r: nat, carry: nat, byte: uint8)
    requires byte == 0x10 * q + r + 0x80 * carry && r < 0x20
    ensures Digits(byte) == 10 * (q + 8 * carry + r / 0x10) + r % 0x10
    ensures r < 0x10 ==> Digits(byte) == 10 * (q + 8 * carry) + r
  {
    assert byte == 0x10 * (q + 8 * carry) + r;
  }

  /** With A clear, ADC tells a byte from the byte rotated right. */
  lemma AdcTellsApart(variant: Variant, p: Status, carryIn: nat, byte: uint8)
    requires carryIn < 2 && Shift(Right, byte, carryIn).value != byte
    ensures Adc(variant, 0, Shift(Right, byte, carryIn).value, p) != Adc(variant, 0, byte, p)
  {
    hide AddDecimal, AddOverflows, Shift;
    if p.d {
      AddToZero(variant, Shift(Right, byte, carryIn).value, p);
      AddToZero(variant, byte, p);
      RotationChangesDigits(byte, carryIn);
    }
  }

  lemma BinaryParity(a: uint8, v: uint8, carry: nat)
    ensures Low8(a + Not8(v) + carry) % 2 == (a + v + 1 + carry) % 2
  {
    var sum := a + Not8(v) + carry;
    assert sum == a + v + 1 + carry + 2 * (127 - v);
    assert sum == 0x100 * (sum / 0x100) + Low8(sum);
  }

  lemma DecimalParity(a: uint8, v: uint8, carry: nat)
    requires carry < 2
    ensures var (al, _) := SubtractLowDigit(a, v, carry); al % 2 == (a + v + 1 + carry) % 2 && 0 <= al < 0x10
  {
    var d := a % 0x10 - v % 0x10 - (1 - carry);
    assert (d - 0x06) % 0x10 % 2 == d % 2;
    assert a == 0x10 * (a / 0x10) + a % 0x10 && v == 0x10 * (v / 0x10) + v % 0x10;
    assert a + v + 1 + carry == d + 2 * (8 * (a / 0x10) + 8 * (v / 0x10) + v % 0x10 + 1);
  }

  /** The low bit of A after SBC. */
  lemma SbcParity(variant: Variant, a: uint8, v: uint8, p: Status)
    ensures Sbc(variant, a, v, p).a % 2 == (a + v + 1 + Carry(p)) % 2
  {
    hide SubtractOverflows, SubtractHighDigit, SubtractLowDigit, Bit7, Low8, Not8;
    if p.d {
      DecimalParity(a, v, Carry(p));
      var (al, borrow) := SubtractLowDigit(a, v, Carry(p));
      assert Sbc(variant, a, v, p).a == (SubtractHighDigit(a, v, borrow) % 0x10) * 0x10 + al;
    } else {
      BinaryParity(a, v, Carry(p));
    }
  }

  /** SBC tells a byte from its successor. */
  lemma SbcTellsApart(variant: Variant, a: uint8, byte: uint8, p: Status)
    ensures Sbc(variant, a, Low8(byte + 1), p) != Sbc(variant, a, byte, p)
  {
    hide Sbc;
    SbcParity(variant, a, byte, p);
    SbcParity(variant, a, Low8(byte + 1), p);
  }

  predicate Law(op: MemoryOp, m: Machine)
    requires IsFused(op)
  {
    Exec(Mem(op), m) == Exec(SecondHalf(op), Exec(FirstHalf(op), m))
  }

  function WithA(m: Machine, a: uint8): Machine {
    m.(r := m.r.(a := a))
  }

  /** An accumulator on which the second half tells the stored byte from the old one. */
  function Witness(op: MemoryOp, stored: uint8, before: uint8): uint8
    requires IsFused(op)
  {
    match op
    case RLA => 0xFF
    case DCP => if stored < before then stored else before
    case _ => 0
  }

  lemma CompareTellsApart(p: Status, v: uint8, w: uint8)
    requires v < w
    ensures CompareFlags(p, v, v) != CompareFlags(p, v, w)
  {
  }

  lemma StoredBytes(m: Machine)
    ensures Stored(RRA, m) == Shift(Right, Target(m), Carry(m.r.p)).value
    ensures Stored(ISC, m) == Low8(Target(m) + 1)
  {
    hide Adc, Sbc, Shift, Low8, OpcodeMask, Bus.Read;
  }

  lemma LogicTellsApart(op: MemoryOp, m: Machine, v: uint8, byte: uint8)
    requires (op.SLO? || op.RLA? || op.SRE?) && v != byte
    ensures var n := WithA(m, Witness(op, v, byte)); After(op, n, v) != After(op, n, byte)
  {
    hide And8, Or8, Xor8, SetZN, Bus.Read, BetweenFlags;
    NeutralOperands(v);
    NeutralOperands(byte);
    var n := WithA(m, Witness(op, v, byte));
    assert After(op, n, v).a == v;
  }

  lemma WitnessTellsApart(op: MemoryOp, m: Machine)
    requires IsFused(op) && Stored(op, m) != Target(m)
    ensures var n := WithA(m, Witness(op, Stored(op, m), Target(m)));
            After(op, n, Stored(op, m)) != After(op, n, Target(m))
  {
    hide Adc, Sbc, CompareFlags, Shift, Low8, Bus.Read, BetweenFlags, MemoryResult;
    var v, byte := Stored(op, m), Target(m);
    var p := BetweenFlags(op, m.r.p, byte);
    StoredBytes(m);
    match op
    case RRA => AdcTellsApart(m.variant, p, Carry(m.r.p), byte);
    case ISC => SbcTellsApart(m.variant, 0, byte, p);
    case DCP =>
      if v < byte { CompareTellsApart(p, v, byte); } else { CompareTellsApart(p, byte, v); }
    case _ => LogicTellsApart(op, m, v, byte);
  }

  /** Whatever A holds, the law needs exactly this: the store takes effect, or stores the byte already there. */
  lemma LawIffStoreKept(op: MemoryOp, m: Machine)
    requires IsFused(op) && m.latch.hasEa
    ensures (forall a: uint8 :: Law(op, WithA(m, a))) <==> Bus.Writable(m.bus, m.latch.ea) || Stored(op, m) == Target(m)
  {
    hide Exec, After, Bus.Writable, Bus.Write, Bus.Read, Witness;
    StoredIgnoresA(op, m);
    forall a: uint8
      ensures Law(op, WithA(m, a)) <==>
              Bus.Writable(m.bus, m.latch.ea) || After(op, WithA(m, a), Stored(op, m)) == After(op, WithA(m, a), Target(m))
    {
      var n := WithA(m, a);
      if Bus.Writable(m.bus, m.latch.ea) {
        FusedIsSequence(op, n);
      } else {
        FusedAfter(op, n);
        HalvesWithoutStore(op, n);
        Unwritten(n, Stored(op, n));
      }
    }
    if Stored(op, m) != Target(m) {
      WitnessTellsApart(op, m);
      var a := Witness(op, Stored(op, m), Target(m));
      assert Law(op, WithA(m, a)) ==> Bus.Writable(m.bus, m.latch.ea);
    }
  }

  lemma StoredIgnoresA(op: MemoryOp, m: Machine)
    requires IsFused(op)
    ensures forall a: uint8 :: Stored(op, WithA(m, a)) == Stored(op, m)
  {
    hide Adc, Sbc, And8, Or8, Xor8, SetZN, CompareFlags, OpcodeMask, Bus.Read;
  }

  lemma Unwritten(m: Machine, value: uint8)
    requires !Bus.Writable(m.bus, m.latch.ea)
    ensures Bus.Write(m.bus, m.latch.ea, value) == m.bus
  {
  }
}
