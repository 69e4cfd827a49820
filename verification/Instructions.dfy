/** What every instruction handler does to the machine, grouped by the part of the machine it touches. */
module Instructions {
  import opened Types
  import opened StatusRegister
  import opened InterruptController
  import opened MachineState
  import opened Stack
  import opened Arithmetic
  import Interrupts
  import Bus

  /** Handlers that change registers and flags only. */
  datatype RegisterOp =
    | LDA | LDX | LDY | LAX | TAX | TXA | TAY | TYA | TSX | TXS
    | INX | DEX | INY | DEY | INCA | DECA
    | CLC | SEC | CLI | SEI | CLD | SED | CLV
    | AND | ORA | EOR | ADC | SBC | USBC | CMP | CPX | CPY | BIT | ANC | ALR | ARR

  /** Handlers that store one byte through EA. */
  datatype MemoryOp =
    | STA | STX | STY | STZ | SAX
    | INC | DEC | TRB | TSB | RMB | SMB
    | DCP | ISC | SLO | RLA | SRE | RRA

  /** Handlers that work on A in accumulator mode and through EA otherwise. */
  datatype ShiftOp = ASL | LSR | ROL | ROR

  datatype BranchOp = BPL | BMI | BVC | BVS | BCC | BCS | BNE | BEQ | BRA | BBR | BBS

  datatype PushOp = PHA | PHP | PHX | PHY

  datatype PullOp = PLA | PLP | PLX | PLY

  datatype Handler =
    | Reg(register: RegisterOp)
    | Mem(memory: MemoryOp)
    | Shf(shift: ShiftOp)
    | Bra(branch: BranchOp)
    | Psh(push: PushOp)
    | Pul(pull: PullOp)
    | JMP | JSR | RTS | RTI | BRK
    | NOP | NOPREAD | ILLEGAL | WAI | STP | KIL

  function OpcodeMask(l: Latch): uint8 {
    BitMask(l.opcode / 0x10 % 8)
  }

  /** The byte a read-modify-write instruction reads: always through EA. */
  function Target(m: Machine): uint8 {
    Bus.Read(m.bus, m.latch.ea)
  }

  function LoadA(r: Registers, value: uint8): Registers {
    r.(a := value, p := SetZN(r.p, value))
  }

  function LoadX(r: Registers, value: uint8): Registers {
    r.(x := value, p := SetZN(r.p, value))
  }

  function LoadY(r: Registers, value: uint8): Registers {
    r.(y := value, p := SetZN(r.p, value))
  }

  function WithAlu(r: Registers, result: AluResult): Registers {
    r.(a := result.a, p := result.p)
  }

  function BitFlags(p: Status, a: uint8, data: uint8, opcode: uint8): Status {
    var tested := p.(z := And8(a, data) == 0);
    if opcode == 0x89 then tested else tested.(n := Bit7(data), v := data % 0x80 >= 0x40)
  }

  /** ARR takes C and V from bits 6 and 5 of the rotated result. */
  function RotateArr(r: Registers, data: uint8): Registers {
    var a := Shift(Right, And8(r.a, data), Carry(r.p)).value;
    var bit6, bit5 := a % 0x80 >= 0x40, a % 0x40 >= 0x20;
    r.(a := a, p := SetZN(r.p, a).(c := bit6, v := bit6 != bit5))
  }

  /** Registers after a register instruction whose operand is `data`. */
  function RegisterResult(op: RegisterOp, variant: Variant, opcode: uint8, r: Registers, data: uint8): Registers {
    match op
    case LDA => LoadA(r, data)
    case LDX => LoadX(r, data)
    case LDY => LoadY(r, data)
    case LAX => LoadA(r, data).(x := data)
    case TAX => LoadX(r, r.a)
    case TXA => LoadA(r, r.x)
    case TAY => LoadY(r, r.a)
    case TYA => LoadA(r, r.y)
    case TSX => LoadX(r, r.s)
    case TXS => r.(s := r.x)
    case INX => LoadX(r, Low8(r.x + 1))
    case DEX => LoadX(r, Low8(r.x - 1))
    case INY => LoadY(r, Low8(r.y + 1))
    case DEY => LoadY(r, Low8(r.y - 1))
    case INCA => LoadA(r, Low8(r.a + 1))
    case DECA => LoadA(r, Low8(r.a - 1))
    case CLC => r.(p := r.p.(c := false))
    case SEC => r.(p := r.p.(c := true))
    case CLI => r.(p := r.p.(i := false))
    case SEI => r.(p := r.p.(i := true))
    case CLD => r.(p := r.p.(d := false))
    case SED => r.(p := r.p.(d := true))
    case CLV => r.(p := r.p.(v := false))
    case AND => LoadA(r, And8(r.a, data))
    case ORA => LoadA(r, Or8(r.a, data))
    case EOR => LoadA(r, Xor8(r.a, data))
    case ADC => WithAlu(r, Adc(variant, r.a, data, r.p))
    case SBC | USBC => WithAlu(r, Sbc(variant, r.a, data, r.p))
    case CMP => r.(p := CompareFlags(r.p, r.a, data))
    case CPX => r.(p := CompareFlags(r.p, r.x, data))
    case CPY => r.(p := CompareFlags(r.p, r.y, data))
    case BIT => r.(p := BitFlags(r.p, r.a, data, opcode))
    case ANC =>
      var a := And8(r.a, data);
      r.(a := a, p := SetZN(r.p, a).(c := Bit7(a)))
    case ALR =>
      var s := Shift(Right, And8(r.a, data), 0);
      r.(a := s.value, p := ShiftFlags(r.p, s))
    case ARR => RotateArr(r, data)
  }

  /** The byte stored through EA, and A and P afterwards. */
  datatype StoreResult = StoreResult(value: uint8, a: uint8, p: Status)

  /** A fused shift: C from the byte shifted, Z and N from the new A. */
  function Fused(s: Shifted, a: uint8, p: Status): StoreResult {
    StoreResult(s.value, a, SetZN(p.(c := s.carry), a))
  }

  function MemoryResult(op: MemoryOp, variant: Variant, mask: uint8, r: Registers, byte: uint8): StoreResult {
    var up, down := Low8(byte + 1), Low8(byte - 1);
    match op
    case STA => StoreResult(r.a, r.a, r.p)
    case STX => StoreResult(r.x, r.a, r.p)
    case STY => StoreResult(r.y, r.a, r.p)
    case STZ => StoreResult(0, r.a, r.p)
    case SAX => StoreResult(And8(r.a, r.x), r.a, r.p)
    case INC => StoreResult(up, r.a, SetZN(r.p, up))
    case DEC => StoreResult(down, r.a, SetZN(r.p, down))
    case TRB => StoreResult(And8(byte, Not8(r.a)), r.a, r.p.(z := And8(r.a, byte) == 0))
    case TSB => StoreResult(Or8(byte, r.a), r.a, r.p.(z := And8(r.a, byte) == 0))
    case RMB => StoreResult(And8(byte, Not8(mask)), r.a, r.p)
    case SMB => StoreResult(Or8(byte, mask), r.a, r.p)
    case DCP => StoreResult(down, r.a, CompareFlags(r.p, r.a, down))
    case ISC =>
      var alu := Sbc(variant, r.a, up, r.p);
      StoreResult(up, alu.a, alu.p)
    case SLO => var s := Shift(Left, byte, 0); Fused(s, Or8(r.a, s.value), r.p)
    case RLA => var s := Shift(Left, byte, Carry(r.p)); Fused(s, And8(r.a, s.value), r.p)
    case SRE => var s := Shift(Right, byte, 0); Fused(s, Xor8(r.a, s.value), r.p)
    case RRA =>
      var s := Shift(Right, byte, Carry(r.p));
      var alu := Adc(variant, r.a, s.value, r.p.(c := s.carry));
      StoreResult(s.value, alu.a, alu.p)
  }

  function StoreThroughEa(m: Machine, w: StoreResult): Machine {
    m.(r := m.r.(a := w.a, p := w.p), bus := Bus.Write(m.bus, m.latch.ea, w.value))
  }

  function ShiftResult(op: ShiftOp, p: Status, value: uint8): Shifted {
    match op
    case ASL => Shift(Left, value, 0)
    case LSR => Shift(Right, value, 0)
    case ROL => Shift(Left, value, Carry(p))
    case ROR => Shift(Right, value, Carry(p))
  }

  function ExecShift(op: ShiftOp, m: Machine): Machine {
    var s := ShiftResult(op, m.r.p, if m.latch.hasEa then Target(m) else m.r.a);
    if m.latch.hasEa then StoreThroughEa(m, StoreResult(s.value, m.r.a, ShiftFlags(m.r.p, s)))
    else m.(r := m.r.(a := s.value, p := ShiftFlags(m.r.p, s)))
  }

  predicate Taken(op: BranchOp, p: Status, tested: uint8, mask: uint8) {
    match op
    case BPL => !p.n
    case BMI => p.n
    case BVC => !p.v
    case BVS => p.v
    case BCC => !p.c
    case BCS => p.c
    case BNE => !p.z
    case BEQ => p.z
    case BRA => true
    case BBR => And8(tested, mask) == 0
    case BBS => And8(tested, mask) != 0
  }

  /** BBR and BBS branch relative to PC, the others to EA. */
  function BranchTarget(op: BranchOp, m: Machine): uint16 {
    if op == BBR || op == BBS then Low16(m.r.pc + m.latch.relOffset) else m.latch.ea
  }

  function ExecBranch(op: BranchOp, m: Machine): Machine {
    if Taken(op, m.r.p, Target(m), OpcodeMask(m.latch)) then
      var target := BranchTarget(op, m);
      WithPc(m, target).(latch := m.latch.(branchTaken := true, branchPageCross := !SamePage(m.r.pc, target)))
    else m
  }

  function PushedByte(op: PushOp, r: Registers): uint8 {
    match op
    case PHA => r.a
    case PHP => Pack(r.p.(b := true, u := true))
    case PHX => r.x
    case PHY => r.y
  }

  /** PLP drops B and forces U. */
  function PullResult(op: PullOp, r: Registers, value: uint8): Registers {
    match op
    case PLA => LoadA(r, value)
    case PLP => r.(p := Unpack(value).(b := false, u := true))
    case PLX => LoadX(r, value)
    case PLY => LoadY(r, value)
  }

  function ExecPull(op: PullOp, m: Machine): Machine {
    var (value, m1) := Pop8(m);
    m1.(r := PullResult(op, m1.r, value))
  }

  function ExecJmp(m: Machine): Machine {
    WithCycles(WithPc(m, m.latch.ea), if m.variant == CMOS && m.latch.opcode == 0x6C then 1 else 0)
  }

  function ExecJsr(m: Machine): Machine {
    WithPc(Push16(m, Low16(m.r.pc - 1)), m.latch.ea)
  }

  function ExecRts(m: Machine): Machine {
    var (address, m1) := Pop16(m);
    WithPc(m1, address + 1)
  }

  /** RTI drops both B and U. */
  function ExecRti(m: Machine): Machine {
    var (status, m1) := Pop8(m);
    var (address, m2) := Pop16(WithP(m1, Unpack(status).(b := false, u := false)));
    WithPc(m2, address)
  }

  function Exec(h: Handler, m: Machine): Machine {
    match h
    case Reg(op) => m.(r := RegisterResult(op, m.variant, m.latch.opcode, m.r, Data(m)))
    case Mem(op) => StoreThroughEa(m, MemoryResult(op, m.variant, OpcodeMask(m.latch), m.r, Target(m)))
    case Shf(op) => ExecShift(op, m)
    case Bra(op) => ExecBranch(op, m)
    case Psh(op) => Push8(m, PushedByte(op, m.r))
    case Pul(op) => ExecPull(op, m)
    case JMP => ExecJmp(m)
    case JSR => ExecJsr(m)
    case RTS => ExecRts(m)
    case RTI => ExecRti(m)
    case BRK => Interrupts.Service(m, Brk)
    case NOP | NOPREAD | ILLEGAL => m
    case WAI => m.(waiting := true)
    case STP | KIL => m.(stopped := true)
  }
}
