/** What one step of each instruction that writes memory or works on the stack does, said of the bytes. */
module MemoryLaws {
  import opened Types
  import opened StatusRegister
  import opened StatusBits
  import opened MachineState
  import opened Arithmetic
  import opened ArithmeticLaws
  import opened BitLaws
  import opened RegisterLaws
  import opened Instructions
  import opened Cpu
  import opened StepMeaning
  import OpcodeBits
  import Bus

  /** After the step memory is as before but for `byte` at the address of the instruction, if that is RAM. */
  predicate Puts(m: Machine, t: Machine, byte: uint8) {
    t.bus == if Bus.Writable(m.bus, Address(m)) then m.bus.(cells := m.bus.cells[Address(m) := byte]) else m.bus
  }

  /** The step goes on to the next instruction and keeps X, Y, S and, unless `a`, A. */
  predicate KeepsRegisters(m: Machine, t: Machine, a: bool) {
    t.r.pc == Following(m) && t.r.x == m.r.x && t.r.y == m.r.y && t.r.s == m.r.s && (!a ==> t.r.a == m.r.a)
  }

  /** The byte at the address of the instruction, before the step. */
  function Found(m: Machine): uint8 {
    Bus.Read(m.bus, Address(m))
  }

  lemma MemoryStep(m: Machine, op: MemoryOp)
    requires Runs(m, Mem(op))
    ensures var w := MemoryResult(op, m.variant, BitMask(NextOpcode(m) / 0x10 % 8), m.r.(pc := Following(m)), Found(m));
            Puts(m, Step(m), w.value) && Step(m).r == m.r.(pc := Following(m), a := w.a, p := w.p)
  {
    hide NextHandler, NextMode, Decode, Fetch, MemoryResult, Step, Operand, Address, Following, BitMask, Bus.Writable, Bus.Read;
    StepIsHandler(m);
    FetchedState(m);
  }

  /** STA, STX, STY, STZ and SAX. */
  lemma StoreStep(m: Machine, op: MemoryOp)
    requires Runs(m, Mem(op)) && OpcodeBits.StoresOnly(Mem(op))
    ensures var t := Step(m);
            && KeepsRegisters(m, t, false) && t.r.p == m.r.p
            && Puts(m, t, if op.STA? then m.r.a else if op.STX? then m.r.x else if op.STY? then m.r.y
                          else if op.STZ? then 0 else And8(m.r.a, m.r.x))
  {
    hide NextHandler, Step, Found, Address, Following, And8, BitMask, Puts;
    MemoryStep(m, op);
  }

  /** INC and DEC, modulo 256. */
  lemma CountMemoryStep(m: Machine, op: MemoryOp)
    requires Runs(m, Mem(op)) && (op.INC? || op.DEC?)
    ensures var t, v := Step(m), (Found(m) + if op.INC? then 1 else -1) % 0x100;
            KeepsRegisters(m, t, false) && Puts(m, t, v) && TellsOnly(m.r.p, t.r.p, v)
  {
    hide NextHandler, Step, Found, Address, Following, BitMask, Puts;
    MemoryStep(m, op);
  }

  /** TSB sets the bits of A, TRB clears them; Z tells whether A and the byte found had none in common. */
  lemma TestBitsStep(m: Machine, op: MemoryOp, byte: uint8)
    requires Runs(m, Mem(op)) && (op.TSB? || op.TRB?)
    requires forall i :: 0 <= i < 8 ==> (Bit(byte, i) <==> if op.TSB? then Bit(Found(m), i) || Bit(m.r.a, i)
                                                              else Bit(Found(m), i) && !Bit(m.r.a, i))
    ensures var t := Step(m);
            && KeepsRegisters(m, t, false) && Puts(m, t, byte)
            && t.r.p == m.r.p.(z := !Meet(m.r.a, Found(m)))
  {
    hide NextHandler, Step, Found, Address, Following, BitMask, Puts, And8, Or8, Not8, Bit, Meet;
    MemoryStep(m, op);
    AndIsZero(m.r.a, Found(m));
    forall i | 0 <= i < 8
      ensures Bit(Or8(Found(m), m.r.a), i) <==> Bit(Found(m), i) || Bit(m.r.a, i)
      ensures Bit(And8(Found(m), Not8(m.r.a)), i) <==> Bit(Found(m), i) && !Bit(m.r.a, i)
    {
      OrBits(Found(m), m.r.a, i);
      AndBits(Found(m), Not8(m.r.a), i);
      NotBits(m.r.a, i);
    }
    SameBits(byte, if op.TSB? then Or8(Found(m), m.r.a) else And8(Found(m), Not8(m.r.a)));
  }

  /** A byte is its bits. */
  lemma SameBits(v: uint8, w: uint8)
    requires forall i :: 0 <= i < 8 ==> (Bit(v, i) <==> Bit(w, i))
    ensures v == w
  {
    hide Bit, Xor8;
    ZeroBits(Xor8(v, w));
    forall i | 0 <= i < 8
      ensures !Bit(Xor8(v, w), i)
    {
      XorBits(v, w, i);
    }
    XorZero(v, w);
  }

  lemma XorZero(v: uint8, w: uint8)
    requires Xor8(v, w) == 0
    ensures v == w
  {
    BitsOfByte(v);
    BitsOfByte(w);
    var x, y := v as bv8, w as bv8;
    assert (x ^ y) as int == 0 ==> x ^ y == 0;
    assert x ^ y == 0 ==> x == y;
  }

  /** RMB and SMB clear and set the bit that the high nibble of the opcode names, modulo 8. */
  lemma OneBitStep(m: Machine, op: MemoryOp, byte: uint8)
    requires Runs(m, Mem(op)) && (op.RMB? || op.SMB?)
    requires forall i :: 0 <= i < 8 ==>
               (Bit(byte, i) <==> if i == NextOpcode(m) / 0x10 % 8 then op.SMB? else Bit(Found(m), i))
    ensures var t := Step(m); KeepsRegisters(m, t, false) && Puts(m, t, byte) && t.r.p == m.r.p
  {
    hide NextHandler, Step, Found, Address, Following, BitMask, Puts, And8, Or8, Not8, Bit, NextOpcode;
    var bit := NextOpcode(m) / 0x10 % 8;
    MemoryStep(m, op);
    forall i | 0 <= i < 8
      ensures Bit(Or8(Found(m), BitMask(bit)), i) <==> Bit(Found(m), i) || i == bit
      ensures Bit(And8(Found(m), Not8(BitMask(bit))), i) <==> Bit(Found(m), i) && i != bit
    {
      OrBits(Found(m), BitMask(bit), i);
      AndBits(Found(m), Not8(BitMask(bit)), i);
      NotBits(BitMask(bit), i);
      BitOfMask(bit, i);
    }
    SameBits(byte, if op.SMB? then Or8(Found(m), BitMask(bit)) else And8(Found(m), Not8(BitMask(bit))));
  }

  /** The byte a shift works on. */
  function ShiftOperand(m: Machine): uint8 {
    if Addressed(m) then Found(m) else m.r.a
  }

  /** `result` is `v` shifted left, or right unless `left`, with `carryIn` coming in and the bit shifted out in C. */
  predicate IsShift(left: bool, v: int, carryIn: int, result: int, carryOut: int) {
    if left then result + 0x100 * carryOut == 2 * v + carryIn else 2 * result + carryOut == v + 0x100 * carryIn
  }

  /** ASL, LSR, ROL and ROR of A or of the byte addressed. */
  lemma ShiftStep(m: Machine, op: ShiftOp) returns (result: uint8)
    requires Runs(m, Shf(op))
    ensures var t, carryIn := Step(m), if op.ROL? || op.ROR? then Carry(m.r.p) else 0;
            && IsShift(op.ASL? || op.ROL?, ShiftOperand(m), carryIn, result, Carry(t.r.p))
            && KeepsRegisters(m, t, !Addressed(m)) && TellsValue(t.r.p, result)
            && t.r.p.v == m.r.p.v && KeepsControlFlags(m.r.p, t.r.p)
            && (if Addressed(m) then Puts(m, t, result) else t.r.a == result && t.bus == m.bus)
  {
    hide NextHandler, NextMode, Decode, Fetch, Step, Address, Following, Bus.Writable, Bus.Read, Addressed, ShiftResult, SetZN;
    StepIsHandler(m);
    FetchedState(m);
    result := ShiftResult(op, m.r.p, ShiftOperand(m)).value;
    ShiftByValue(op, m.r.p, ShiftOperand(m));
    SetZnTells(m.r.p.(c := ShiftResult(op, m.r.p, ShiftOperand(m)).carry), result);
    SetZnKeeps(m.r.p.(c := ShiftResult(op, m.r.p, ShiftOperand(m)).carry), result);
  }

  lemma SetZnKeeps(p: Status, byte: uint8)
    ensures SetZN(p, byte).c == p.c && SetZN(p, byte).v == p.v && KeepsControlFlags(p, SetZN(p, byte))
  {
  }

  lemma ShiftByValue(op: ShiftOp, p: Status, v: uint8)
    ensures var s, carryIn := ShiftResult(op, p, v), if op.ROL? || op.ROR? then Carry(p) else 0;
            IsShift(op.ASL? || op.ROL?, v, carryIn, s.value, if s.carry then 1 else 0)
  {
    hide Shift;
    LeftByValue(v, Carry(p));
    LeftByValue(v, 0);
    RightByValue(v, Carry(p));
    RightByValue(v, 0);
  }

  lemma LeftByValue(v: uint8, carryIn: nat)
    requires carryIn < 2
    ensures var s := Shift(Left, v, carryIn); s.value + 0x100 * (if s.carry then 1 else 0) == 2 * v + carryIn
  {
  }

  lemma RightByValue(v: uint8, carryIn: nat)
    requires carryIn < 2
    ensures var s := Shift(Right, v, carryIn); 2 * s.value + (if s.carry then 1 else 0) == v + 0x100 * carryIn
  {
  }

  /** Pushes write at $0100 + S and count S down; PHP sets bits 4 and 5 of the byte. */
  lemma PushStep(m: Machine, op: PushOp) returns (byte: uint8)
    requires Runs(m, Psh(op))
    ensures var t := Step(m);
            && t.bus == (if Bus.Writable(m.bus, 0x0100 + m.r.s) then m.bus.(cells := m.bus.cells[0x0100 + m.r.s := byte])
                         else m.bus)
            && t.r == m.r.(pc := Following(m), s := (m.r.s - 1) % 0x100)
            && (op.PHA? ==> byte == m.r.a) && (op.PHX? ==> byte == m.r.x) && (op.PHY? ==> byte == m.r.y)
            && (op.PHP? ==> SaysFlags(byte, m.r.p) && Bit(byte, 4) && Bit(byte, 5))
  {
    hide NextHandler, NextMode, Decode, Fetch, Step, Following, Bus.Writable, Pack, Bit;
    StepIsHandler(m);
    FetchedState(m);
    byte := PushedByte(op, m.r);
    PackBits(m.r.p.(b := true, u := true));
  }

  /** Pulls count S up and read at $0100 + S; PLP takes the flags from the byte, leaving B clear and U set. */
  lemma PullStep(m: Machine, op: PullOp)
    requires Runs(m, Pul(op))
    ensures var t, byte := Step(m), Bus.Read(m.bus, 0x0100 + (m.r.s + 1) % 0x100);
            && t.bus == m.bus && t.r.pc == Following(m) && t.r.s == (m.r.s + 1) % 0x100
            && t.r.a == (if op.PLA? then byte else m.r.a)
            && t.r.x == (if op.PLX? then byte else m.r.x)
            && t.r.y == (if op.PLY? then byte else m.r.y)
            && (if op.PLP? then SaysFlags(byte, t.r.p) && !t.r.p.b && t.r.p.u else TellsOnly(m.r.p, t.r.p, byte))
  {
    hide NextHandler, NextMode, Decode, Fetch, Step, Following, Bus.Read, Unpack, Bit;
    StepIsHandler(m);
    FetchedState(m);
    UnpackBits(Bus.Read(m.bus, 0x0100 + (m.r.s + 1) % 0x100));
  }
}
