/** What one step of each register instruction does, said of the registers, the operand and the flags. */
module RegisterLaws {
  import opened Types
  import opened StatusRegister
  import opened StatusBits
  import opened MachineState
  import opened Arithmetic
  import opened ArithmeticLaws
  import opened BitLaws
  import opened Instructions
  import opened Cpu
  import opened StepMeaning

  /** The step leaves memory alone, goes on to the next instruction and changes no register outside `changed`. */
  predicate Keeps(m: Machine, t: Machine, a: bool, x: bool, y: bool, s: bool) {
    && t.bus == m.bus && t.r.pc == Following(m)
    && (!a ==> t.r.a == m.r.a) && (!x ==> t.r.x == m.r.x) && (!y ==> t.r.y == m.r.y) && (!s ==> t.r.s == m.r.s)
  }

  /** N and Z tell the byte; no other flag changes. */
  predicate TellsOnly(p: Status, q: Status, byte: int) {
    TellsValue(q, byte) && q.c == p.c && q.v == p.v && KeepsControlFlags(p, q)
  }

  lemma RegisterStep(m: Machine, op: RegisterOp)
    requires Runs(m, Reg(op))
    ensures Step(m).r == RegisterResult(op, m.variant, NextOpcode(m), m.r.(pc := Following(m)), Operand(m))
    ensures Step(m).bus == m.bus
  {
    hide NextHandler, NextMode, Decode, Fetch, RegisterResult, Step, Operand, Address, Following;
    StepIsHandler(m);
    FetchedState(m);
  }

  /** LDA, LDX, LDY and LAX take the operand. */
  lemma LoadStep(m: Machine, op: RegisterOp)
    requires Runs(m, Reg(op)) && (op.LDA? || op.LDX? || op.LDY? || op.LAX?)
    ensures var t, v := Step(m), Operand(m);
            && Keeps(m, t, !op.LDX? && !op.LDY?, op.LDX? || op.LAX?, op.LDY?, false) && TellsOnly(m.r.p, t.r.p, v)
            && (op.LDA? ==> t.r.a == v) && (op.LDX? ==> t.r.x == v) && (op.LDY? ==> t.r.y == v)
            && (op.LAX? ==> t.r.a == t.r.x == v)
  {
    hide NextHandler, Step, Operand, Following;
    RegisterStep(m, op);
  }

  /** Transfers copy one register into another; all but TXS tell its value. */
  lemma TransferStep(m: Machine, op: RegisterOp)
    requires Runs(m, Reg(op)) && (op.TAX? || op.TAY? || op.TXA? || op.TYA? || op.TSX? || op.TXS?)
    ensures var t := Step(m);
            && Keeps(m, t, op.TXA? || op.TYA?, op.TAX? || op.TSX?, op.TAY?, op.TXS?)
            && (op.TAX? ==> t.r.x == m.r.a && TellsOnly(m.r.p, t.r.p, m.r.a))
            && (op.TAY? ==> t.r.y == m.r.a && TellsOnly(m.r.p, t.r.p, m.r.a))
            && (op.TXA? ==> t.r.a == m.r.x && TellsOnly(m.r.p, t.r.p, m.r.x))
            && (op.TYA? ==> t.r.a == m.r.y && TellsOnly(m.r.p, t.r.p, m.r.y))
            && (op.TSX? ==> t.r.x == m.r.s && TellsOnly(m.r.p, t.r.p, m.r.s))
            && (op.TXS? ==> t.r.s == m.r.x && t.r.p == m.r.p)
  {
    hide NextHandler, Step, Operand, Following;
    RegisterStep(m, op);
  }

  /** Counting up and down, modulo 256. */
  lemma CountStep(m: Machine, op: RegisterOp)
    requires Runs(m, Reg(op)) && (op.INX? || op.DEX? || op.INY? || op.DEY? || op.INCA? || op.DECA?)
    ensures var t := Step(m);
            && Keeps(m, t, op.INCA? || op.DECA?, op.INX? || op.DEX?, op.INY? || op.DEY?, false)
            && (op.INX? ==> t.r.x == (m.r.x + 1) % 0x100 && TellsOnly(m.r.p, t.r.p, t.r.x))
            && (op.DEX? ==> t.r.x == (m.r.x - 1) % 0x100 && TellsOnly(m.r.p, t.r.p, t.r.x))
            && (op.INY? ==> t.r.y == (m.r.y + 1) % 0x100 && TellsOnly(m.r.p, t.r.p, t.r.y))
            && (op.DEY? ==> t.r.y == (m.r.y - 1) % 0x100 && TellsOnly(m.r.p, t.r.p, t.r.y))
            && (op.INCA? ==> t.r.a == (m.r.a + 1) % 0x100 && TellsOnly(m.r.p, t.r.p, t.r.a))
            && (op.DECA? ==> t.r.a == (m.r.a - 1) % 0x100 && TellsOnly(m.r.p, t.r.p, t.r.a))
  {
    hide NextHandler, Step, Operand, Following;
    RegisterStep(m, op);
  }

  /** The flag instructions set or clear one flag. */
  lemma FlagStep(m: Machine, op: RegisterOp)
    requires Runs(m, Reg(op)) && (op.CLC? || op.SEC? || op.CLI? || op.SEI? || op.CLD? || op.SED? || op.CLV?)
    ensures var t, p := Step(m), m.r.p;
            && Keeps(m, t, false, false, false, false) && t.r.p.n == p.n && t.r.p.z == p.z && t.r.p.b == p.b && t.r.p.u == p.u
            && t.r.p.c == (if op.SEC? then true else if op.CLC? then false else p.c)
            && t.r.p.i == (if op.SEI? then true else if op.CLI? then false else p.i)
            && t.r.p.d == (if op.SED? then true else if op.CLD? then false else p.d)
            && t.r.p.v == (if op.CLV? then false else p.v)
  {
    hide NextHandler, Step, Operand, Following;
    RegisterStep(m, op);
  }

  /** AND, ORA and EOR work on every bit. */
  lemma LogicStep(m: Machine, op: RegisterOp)
    requires Runs(m, Reg(op)) && (op.AND? || op.ORA? || op.EOR?)
    ensures var t, v := Step(m), Operand(m);
            && Keeps(m, t, true, false, false, false) && TellsOnly(m.r.p, t.r.p, t.r.a)
            && forall i :: 0 <= i < 8 ==>
                 (Bit(t.r.a, i) <==> if op.AND? then Bit(m.r.a, i) && Bit(v, i)
                                     else if op.ORA? then Bit(m.r.a, i) || Bit(v, i)
                                     else Bit(m.r.a, i) != Bit(v, i))
  {
    hide NextHandler, Step, Operand, Following, And8, Or8, Xor8, Bit;
    RegisterStep(m, op);
    forall i | 0 <= i < 8
      ensures Bit(And8(m.r.a, Operand(m)), i) <==> Bit(m.r.a, i) && Bit(Operand(m), i)
      ensures Bit(Or8(m.r.a, Operand(m)), i) <==> Bit(m.r.a, i) || Bit(Operand(m), i)
      ensures Bit(Xor8(m.r.a, Operand(m)), i) <==> Bit(m.r.a, i) != Bit(Operand(m), i)
    {
      AndBits(m.r.a, Operand(m), i);
      OrBits(m.r.a, Operand(m), i);
      XorBits(m.r.a, Operand(m), i);
    }
  }

  /** `v` and `w` have a set bit in common. */
  predicate Meet(v: uint8, w: uint8) {
    exists i :: 0 <= i < 8 && Bit(v, i) && Bit(w, i)
  }

  lemma AndIsZero(v: uint8, w: uint8)
    ensures And8(v, w) == 0 <==> !Meet(v, w)
  {
    hide And8, Bit;
    ZeroBits(And8(v, w));
    forall i | 0 <= i < 8
      ensures Bit(And8(v, w), i) <==> Bit(v, i) && Bit(w, i)
    {
      AndBits(v, w, i);
    }
  }

  /** BIT: Z tells whether A and the operand have no bit in common; N and V are its bits 7 and 6, but for $89. */
  lemma BitTestStep(m: Machine)
    requires Runs(m, Reg(BIT))
    ensures var t, v, p := Step(m), Operand(m), m.r.p;
            && Keeps(m, t, false, false, false, false) && (t.r.p.z <==> !Meet(m.r.a, v))
            && t.r.p.c == p.c && KeepsControlFlags(p, t.r.p)
            && (t.r.p.n <==> if NextOpcode(m) == 0x89 then p.n else Bit(v, 7))
            && (t.r.p.v <==> if NextOpcode(m) == 0x89 then p.v else Bit(v, 6))
  {
    hide NextHandler, Step, Operand, Following, And8, Meet;
    RegisterStep(m, BIT);
    AndIsZero(m.r.a, Operand(m));
    SixthBit(Operand(m));
  }

  lemma SixthBit(v: uint8)
    ensures Bit(v, 6) <==> v % 0x80 >= 0x40
    ensures Bit(v, 7) <==> v >= 0x80
  {
  }

  /** CMP, CPX and CPY leave the comparison in C, Z and N. */
  lemma CompareStep(m: Machine, op: RegisterOp)
    requires Runs(m, Reg(op)) && (op.CMP? || op.CPX? || op.CPY?)
    ensures var t, v, register := Step(m), Operand(m), if op.CMP? then m.r.a else if op.CPX? then m.r.x else m.r.y;
            && Keeps(m, t, false, false, false, false)
            && (t.r.p.c <==> register >= v) && (t.r.p.z <==> register == v)
            && (t.r.p.n <==> (register - v) % 0x100 >= 0x80) && t.r.p.v == m.r.p.v && KeepsControlFlags(m.r.p, t.r.p)
  {
    hide NextHandler, Step, Operand, Following, CompareFlags;
    RegisterStep(m, op);
    Comparison(m.r.p, m.r.a, Operand(m));
    Comparison(m.r.p, m.r.x, Operand(m));
    Comparison(m.r.p, m.r.y, Operand(m));
  }

  /** ADC with D clear. */
  lemma AddStep(m: Machine)
    requires Runs(m, Reg(ADC)) && !m.r.p.d
    ensures var t, sum := Step(m), m.r.a + Operand(m) + Carry(m.r.p);
            && Keeps(m, t, true, false, false, false)
            && t.r.a == sum % 0x100 && (t.r.p.c <==> sum >= 0x100) && TellsValue(t.r.p, t.r.a)
            && (t.r.p.v <==> !(-0x80 <= Signed8(m.r.a) + Signed8(Operand(m)) + Carry(m.r.p) < 0x80))
            && KeepsControlFlags(m.r.p, t.r.p)
  {
    hide NextHandler, Step, Operand, Following, Adc, Signed8;
    RegisterStep(m, ADC);
    BinarySum(m.variant, m.r.a, Operand(m), m.r.p);
  }

  /** SBC, also under its undocumented opcode, with D clear. */
  lemma SubtractStep(m: Machine, op: RegisterOp)
    requires Runs(m, Reg(op)) && (op.SBC? || op.USBC?) && !m.r.p.d
    ensures var t, difference := Step(m), m.r.a - Operand(m) - (1 - Carry(m.r.p));
            && Keeps(m, t, true, false, false, false)
            && t.r.a == difference % 0x100 && (t.r.p.c <==> difference >= 0) && TellsValue(t.r.p, t.r.a)
            && (t.r.p.v <==> !(-0x80 <= Signed8(m.r.a) - Signed8(Operand(m)) - (1 - Carry(m.r.p)) < 0x80))
            && KeepsControlFlags(m.r.p, t.r.p)
  {
    hide NextHandler, Step, Operand, Following, Sbc, Signed8;
    RegisterStep(m, op);
    BinaryDifference(m.variant, m.r.a, Operand(m), m.r.p);
  }

  /** ANC: AND, its sign also in C. ALR: AND, then a shift right. */
  lemma AndCarryStep(m: Machine, op: RegisterOp)
    requires Runs(m, Reg(op)) && (op.ANC? || op.ALR?)
    ensures var t, both := Step(m), And8(m.r.a, Operand(m));
            && Keeps(m, t, true, false, false, false) && TellsValue(t.r.p, t.r.a)
            && t.r.p.v == m.r.p.v && KeepsControlFlags(m.r.p, t.r.p)
            && (op.ANC? ==> t.r.a == both && (t.r.p.c <==> both >= 0x80))
            && (op.ALR? ==> t.r.a == both / 2 && (t.r.p.c <==> both % 2 == 1))
  {
    hide NextHandler, Step, Operand, Following, And8;
    RegisterStep(m, op);
  }

  /** ARR: AND, then a rotate right; C and V from bits 6 and 5 of the result. */
  lemma AndRotateStep(m: Machine)
    requires Runs(m, Reg(ARR))
    ensures var t, both := Step(m), And8(m.r.a, Operand(m));
            && Keeps(m, t, true, false, false, false) && TellsValue(t.r.p, t.r.a) && KeepsControlFlags(m.r.p, t.r.p)
            && 2 * t.r.a + both % 2 == both + 0x100 * Carry(m.r.p)
            && (t.r.p.c <==> Bit(t.r.a, 6)) && (t.r.p.v <==> Bit(t.r.a, 6) != Bit(t.r.a, 5))
  {
    hide NextHandler, Step, Operand, Following, And8;
    RegisterStep(m, ARR);
    FifthBit(Step(m).r.a);
  }

  lemma FifthBit(v: uint8)
    ensures Bit(v, 6) <==> v % 0x80 >= 0x40
    ensures Bit(v, 5) <==> v % 0x40 >= 0x20
  {
  }

  /** ADC with D set: on NMOS N, Z and V are those of the binary sum, on CMOS N and Z tell A; A goes digit by digit. */
  lemma DecimalAddStep(m: Machine)
    requires Runs(m, Reg(ADC)) && m.r.p.d
    ensures var t, v, carry := Step(m), Operand(m), Carry(m.r.p);
            var low := m.r.a % 0x10 + v % 0x10 + carry;
            var high := m.r.a / 0x10 + v / 0x10 + if low >= 10 then 1 else 0;
            && Keeps(m, t, true, false, false, false)
            && t.r.a == 0x10 * DigitOfSum(high) + DigitOfSum(low) && (t.r.p.c <==> high >= 10)
            && TellsValue(t.r.p, if m.variant == NMOS then (m.r.a + v + carry) % 0x100 else t.r.a)
            && (t.r.p.v <==> !(-0x80 <= Signed8(m.r.a) + Signed8(v) + carry < 0x80)) && KeepsControlFlags(m.r.p, t.r.p)
  {
    hide NextHandler, Step, Operand, Following, Adc, Signed8;
    RegisterStep(m, ADC);
    DecimalSum(m.variant, m.r.a, Operand(m), m.r.p);
  }

  /** SBC with D set: C and V are those of the binary difference; on NMOS so are N and Z, on CMOS they tell A. */
  lemma DecimalSubtractStep(m: Machine, op: RegisterOp)
    requires Runs(m, Reg(op)) && (op.SBC? || op.USBC?) && m.r.p.d
    ensures var t, v, borrow := Step(m), Operand(m), 1 - Carry(m.r.p);
            var low := m.r.a % 0x10 - v % 0x10 - borrow;
            var high := m.r.a / 0x10 - v / 0x10 - if low < 0 then 1 else 0;
            && Keeps(m, t, true, false, false, false)
            && t.r.a == 0x10 * DigitOfDifference(high) + DigitOfDifference(low) && (t.r.p.c <==> m.r.a - v - borrow >= 0)
            && TellsValue(t.r.p, if m.variant == NMOS then (m.r.a - v - borrow) % 0x100 else t.r.a)
            && (t.r.p.v <==> !(-0x80 <= Signed8(m.r.a) - Signed8(v) - borrow < 0x80)) && KeepsControlFlags(m.r.p, t.r.p)
  {
    hide NextHandler, Step, Operand, Following, Sbc, Signed8;
    RegisterStep(m, op);
    DecimalDifference(m.variant, m.r.a, Operand(m), m.r.p);
  }
}
