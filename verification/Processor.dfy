/** The running CPU: registers, globals, memory and interrupt unit, updated in place by the instruction handlers. */
module Processor {
  import opened Types
  import opened StatusRegister
  import opened InterruptController
  import opened MachineState
  import opened Addressing
  import opened Arithmetic
  import opened Instructions
  import opened Memory
  import Interrupts
  import Handlers
  import Stack
  import Cpu
  import Cycles
  import Runs
  import StepEffects
  import Bus

  class Processor {
    const variant: Variant
    const memory: RegionMemory
    const interrupts: InterruptUnit
    var pc: uint16
    var a: uint8
    var x: uint8
    var y: uint8
    var s: uint8
    var p: Status
    var cycles: uint32
    var waiting: bool
    var stopped: bool
    var opcode: uint8
    var ea: uint16
    var hasEa: bool
    var pageCross: bool
    var branchTaken: bool
    var branchPageCross: bool
    var relOffset: int8

    ghost predicate Valid()
      reads this, memory, memory.buffers, interrupts
    {
      memory.Valid() && interrupts.Valid()
    }

    /** The machine as a value. */
    ghost function State(): Machine
      requires Valid()
      reads this, memory, memory.buffers, interrupts, interrupts.history
    {
      Machine(variant, Registers(pc, a, x, y, s, p), cycles, waiting, stopped,
              Latch(opcode, ea, hasEa, pageCross, branchTaken, branchPageCross, relOffset),
              memory.space, interrupts.Value())
    }

    constructor (variant: Variant, memory: RegionMemory, interrupts: InterruptUnit)
      requires memory.Valid() && interrupts.Valid()
      ensures Valid() && this.variant == variant && this.memory == memory && this.interrupts == interrupts
      ensures !waiting && !stopped && cycles == 0
    {
      this.variant, this.memory, this.interrupts := variant, memory, interrupts;
      pc, a, x, y, s, p := 0, 0, 0, 0, 0, Status(false, false, false, false, false, false, false, false);
      cycles, waiting, stopped := 0, false, false;
      opcode, ea, hasEa, pageCross, branchTaken, branchPageCross, relOffset := 0, 0, false, false, false, false, 0;
    }

    method Fetch8() returns (value: uint8)
      requires Valid()
      modifies `pc
      ensures value == Bus.Read(memory.space, old(pc)) && pc == Low16(old(pc) + 1)
    {
      hide RegionMemory.Valid, Bus.Read, Bus.Write;
      value := memory.Read(pc);
      pc := Low16(pc + 1);
    }

    method Fetch16() returns (value: uint16)
      requires Valid()
      modifies `pc
      ensures value == Bus.Read16(memory.space, old(pc)) && pc == Low16(old(pc) + 2)
    {
      hide RegionMemory.Valid, Bus.Read, Bus.Write;
      var lo := memory.Read(pc);
      var hi := memory.Read(Low16(pc + 1));
      pc := Low16(pc + 2);
      value := Word(lo, hi);
    }

    method BusRead16(addr: uint16) returns (value: uint16)
      requires Valid()
      ensures value == Bus.Read16(memory.space, addr)
    {
      hide RegionMemory.Valid, Bus.Read, Bus.Write;
      var lo := memory.Read(addr);
      var hi := memory.Read(Low16(addr + 1));
      value := Word(lo, hi);
    }

    method ReadZeroPagePointer(zp: uint8) returns (value: uint16)
      requires Valid()
      ensures value == Word(Bus.Read(memory.space, zp), Bus.Read(memory.space, Low8(zp + 1)))
    {
      hide RegionMemory.Valid, Bus.Read, Bus.Write;
      var lo := memory.Read(zp);
      var hi := memory.Read(Low8(zp + 1));
      value := Word(lo, hi);
    }

    method Push8(value: uint8)
      requires Valid()
      modifies `s, memory`space, memory.buffers
      ensures Valid() && State() == Stack.Push8(old(State()), value)
    {
      hide RegionMemory.Valid, Bus.Read, Bus.Write;
      memory.Write(Stack.STACK_START + s, value);
      s := Low8(s - 1);
    }

    method Push16(value: uint16)
      requires Valid()
      modifies `s, memory`space, memory.buffers
      ensures Valid() && State() == Stack.Push16(old(State()), value)
    {
      hide RegionMemory.Valid, Bus.Read, Bus.Write;
      Push8(HighByte(value));
      Push8(LowByte(value));
    }

    method Pop8() returns (value: uint8)
      requires Valid()
      modifies `s
      ensures Valid() && (value, State()) == Stack.Pop8(old(State()))
    {
      hide RegionMemory.Valid, Bus.Read, Bus.Write;
      s := Low8(s + 1);
      value := memory.Read(Stack.STACK_START + s);
    }

    method Pop16() returns (value: uint16)
      requires Valid()
      modifies `s
      ensures Valid() && (value, State()) == Stack.Pop16(old(State()))
    {
      hide RegionMemory.Valid, Bus.Read, Bus.Write;
      var low := Pop8();
      var high := Pop8();
      value := Word(low, high);
    }

    /** Sets EA and the flags that go with it, fetching the operand bytes. */
    method AddrResolve(mode: Mode)
      requires Valid()
      modifies `pc, `ea, `hasEa, `pageCross, `relOffset
      ensures Valid() && State() == Resolve(mode, old(State()))
    {
      hide RegionMemory.Valid, InterruptUnit.Valid, InterruptUnit.Value, EffectiveAddress, CrossesPage, OperandBytes, RelOffset, Low16, HasEa;
      ghost var before := State();
      pageCross := false;
      SetHasEa(mode);
      AddressIgnoresLatch(mode, before, State());
      ea := Address(mode);
    }

    method SetHasEa(mode: Mode)
      modifies `hasEa
      ensures hasEa == HasEa(mode)
    {
      hasEa := true;
      if mode.Imm? || mode.Rel? || mode.Acc? || mode.Implied? {
        hasEa := false;
      }
    }

    method Address(mode: Mode) returns (addr: uint16)
      requires Valid() && !pageCross
      modifies `pc, `pageCross, `relOffset
      ensures addr == EffectiveAddress(mode, old(State())) && pc == Low16(old(pc) + OperandBytes(mode))
      ensures pageCross == CrossesPage(mode, old(State())) && relOffset == RelOffset(mode, old(State()))
    {
      hide RegionMemory.Valid, Bus.Read, SamePage, EffectiveAddress;
      match mode {
        case Zp | ZpX | ZpY | Imm => addr := AddrZeroPage(mode);
        case Abs | AbsX | AbsY => addr := AddrAbsolute(mode);
        case Ind => addr := AddrInd();
        case AbsIndX => addr := AddrAbsIndX();
        case IndX => addr := AddrIndX();
        case IndY => addr := AddrIndY();
        case ZpInd => addr := AddrZpInd();
        case Rel => addr := AddrRel();
        case ZpRel => addr := AddrZpRel();
        case Acc | Implied =>
          NoOperandAddress(mode);
          addr := 0;
      }
    }

    lemma NoOperandAddress(mode: Mode)
      requires Valid() && (mode.Acc? || mode.Implied?)
      ensures EffectiveAddress(mode, State()) == 0
    {
      hide RegionMemory.Valid;
    }

    method AddrZeroPage(mode: Mode) returns (addr: uint16)
      requires Valid() && (mode.Zp? || mode.ZpX? || mode.ZpY? || mode.Imm?)
      modifies `pc
      ensures addr == EffectiveAddress(mode, old(State())) && pc == Low16(old(pc) + 1)
    {
      hide RegionMemory.Valid, Bus.Read;
      var operand := Fetch8();
      addr := if mode.ZpX? then Low8(x + operand) else if mode.ZpY? then Low8(y + operand) else operand;
    }

    method AddrAbsolute(mode: Mode) returns (addr: uint16)
      requires Valid() && !pageCross && (mode.Abs? || mode.AbsX? || mode.AbsY?)
      modifies `pc, `pageCross
      ensures addr == EffectiveAddress(mode, old(State())) && pc == Low16(old(pc) + 2)
      ensures pageCross == CrossesPage(mode, old(State()))
    {
      hide RegionMemory.Valid, Bus.Read16, SamePage;
      var base := Fetch16();
      if mode.Abs? { return base; }
      addr := Low16(base + if mode.AbsX? then x else y);
      pageCross := !SamePage(base, addr);
    }

    method AddrAbsIndX() returns (addr: uint16)
      requires Valid()
      modifies `pc
      ensures addr == EffectiveAddress(AbsIndX, old(State())) && pc == Low16(old(pc) + 2)
    {
      hide RegionMemory.Valid, Bus.Read16;
      var base := Fetch16();
      addr := BusRead16(Low16(base + x));
    }

    method AddrZpInd() returns (addr: uint16)
      requires Valid()
      modifies `pc
      ensures addr == EffectiveAddress(ZpInd, old(State())) && pc == Low16(old(pc) + 1)
    {
      hide RegionMemory.Valid, Bus.Read;
      var operand := Fetch8();
      addr := ReadZeroPagePointer(operand);
    }

    method AddrInd() returns (addr: uint16)
      requires Valid()
      modifies `pc
      ensures addr == EffectiveAddress(Ind, old(State())) && pc == Low16(old(pc) + 2)
    {
      hide RegionMemory.Valid, Bus.Read;
      var base := Fetch16();
      if variant == NMOS && base % 0x100 == 0xFF {
        var lo := memory.Read(base);
        var hi := memory.Read(base - 0xFF);
        return Word(lo, hi);
      }
      addr := BusRead16(base);
    }

    method AddrIndX() returns (addr: uint16)
      requires Valid()
      modifies `pc
      ensures addr == EffectiveAddress(IndX, old(State())) && pc == Low16(old(pc) + 1)
    {
      hide RegionMemory.Valid, Bus.Read;
      var operand := Fetch8();
      addr := ReadZeroPagePointer(Low8(operand + x));
    }

    method AddrIndY() returns (addr: uint16)
      requires Valid()
      modifies `pc, `pageCross
      ensures addr == EffectiveAddress(IndY, old(State())) && pageCross == CrossesPage(IndY, old(State()))
      ensures pc == Low16(old(pc) + 1)
    {
      hide RegionMemory.Valid, Bus.Read, Low16, Low8, SamePage;
      var operand := Fetch8();
      var base := ReadZeroPagePointer(operand);
      addr := Low16(base + y);
      pageCross := !SamePage(base, addr);
    }

    method AddrRel() returns (addr: uint16)
      requires Valid()
      modifies `pc
      ensures addr == EffectiveAddress(Rel, old(State())) && pc == Low16(old(pc) + 1)
    {
      hide RegionMemory.Valid, Bus.Read;
      var offset := Fetch8();
      addr := Low16(pc + Signed8(offset));
    }

    method AddrZpRel() returns (addr: uint16)
      requires Valid()
      modifies `pc, `relOffset
      ensures addr == EffectiveAddress(ZpRel, old(State())) && relOffset == RelOffset(ZpRel, old(State()))
      ensures pc == Low16(old(pc) + 2)
    {
      hide RegionMemory.Valid, Bus.Read;
      addr := Fetch8();
      var offset := Fetch8();
      relOffset := Signed8(offset);
    }

    method Operand() returns (value: uint8)
      requires Valid()
      ensures value == Data(State())
    {
      hide RegionMemory.Valid, Bus.Read;
      if hasEa {
        value := memory.Read(ea);
      } else {
        value := LowByte(ea);
      }
    }

    method AdcCore(v: uint8)
      modifies `a, `p
      ensures AluResult(a, p) == Adc(variant, old(a), v, old(p))
    {
      hide AddBinary, AddDecimal;
      if !p.d {
        AdcBinary(v);
      } else {
        AdcDecimal(v);
      }
    }

    method AdcBinary(v: uint8)
      modifies `a, `p
      ensures AluResult(a, p) == AddBinary(old(a), v, old(p))
    {
      hide AddOverflows, Bit7, Low8;
      var sum := a + v + Carry(p);
      p := p.(c := sum > 0xFF, v := AddOverflows(a, v, sum));
      a := Low8(sum);
      p := SetZN(p, a);
    }

    method AdcDecimal(v: uint8)
      modifies `a, `p
      ensures AluResult(a, p) == AddDecimal(variant, old(a), v, old(p))
    {
      hide AddOverflows, AddLowDigit, AddHighDigit, Bit7, Low8;
      var binarySum := a + v + Carry(p);
      var al, ah := AddDigits(v);
      p := p.(c := ah >= 0x10, v := AddOverflows(a, v, binarySum));
      a := (ah % 0x10) * 0x10 + al % 0x10;
      p := SetZN(p, if variant == CMOS then a else Low8(binarySum));
    }

    /** The adjusted digits of the decimal sum; the high one keeps its overflow. */
    method AddDigits(v: uint8) returns (al: nat, ah: nat)
      ensures var (low, carry) := AddLowDigit(a, v, Carry(p)); al == low && ah == AddHighDigit(a, v, carry)
    {
      al := a % 0x10 + v % 0x10 + Carry(p);
      ah := a / 0x10 + v / 0x10;
      if al >= 0x0A {
        al := (al + 0x06) % 0x10;
        ah := ah + 1;
      }
      if ah >= 0x0A {
        ah := ah + 0x06;
      }
    }

    method SbcCore(v: uint8)
      modifies `a, `p
      ensures AluResult(a, p) == Sbc(variant, old(a), v, old(p))
    {
      hide SubtractBinary, SubtractDecimal;
      if !p.d {
        SbcBinary(v);
      } else {
        SbcDecimal(v);
      }
    }

    method SbcBinary(v: uint8)
      modifies `a, `p
      ensures AluResult(a, p) == SubtractBinary(old(a), v, old(p))
    {
      hide SubtractOverflows, Bit7, Not8, Low8;
      var sub := a + Not8(v) + Carry(p);
      p := p.(c := sub > 0xFF, v := SubtractOverflows(a, v, sub));
      a := Low8(sub);
      p := SetZN(p, a);
    }

    method SbcDecimal(v: uint8)
      modifies `a, `p
      ensures AluResult(a, p) == SubtractDecimal(variant, old(a), v, old(p))
    {
      hide SubtractOverflows, SubtractLowDigit, SubtractHighDigit, Bit7, Not8, Low8;
      var binarySub := a + Not8(v) + Carry(p);
      var al, ah := SubtractDigits(v);
      p := p.(c := binarySub > 0xFF, v := SubtractOverflows(a, v, binarySub));
      a := (ah % 0x10) * 0x10 + al % 0x10;
      p := SetZN(p, if variant == CMOS then a else Low8(binarySub));
    }

    /** The adjusted digits of the decimal difference. */
    method SubtractDigits(v: uint8) returns (al: int, ah: int)
      ensures var (low, borrow) := SubtractLowDigit(a, v, Carry(p)); al == low && ah == SubtractHighDigit(a, v, borrow)
    {
      al := a % 0x10 - v % 0x10 - (if p.c then 0 else 1);
      ah := a / 0x10 - v / 0x10;
      if al < 0 {
        al := (al - 0x06) % 0x10;
        ah := ah - 1;
      }
      if ah < 0 {
        ah := (ah - 0x06) % 0x10;
      }
    }

    function Regs(): Registers
      reads `pc, `a, `x, `y, `s, `p
    {
      Registers(pc, a, x, y, s, p)
    }

    function Globals(): Latch
      reads `opcode, `ea, `hasEa, `pageCross, `branchTaken, `branchPageCross, `relOffset
    {
      Latch(opcode, ea, hasEa, pageCross, branchTaken, branchPageCross, relOffset)
    }

    predicate IsLoad(op: RegisterOp) {
      op.LDA? || op.LDX? || op.LDY? || op.LAX?
    }

    method RunLoad(op: RegisterOp)
      requires Valid() && IsLoad(op)
      modifies `a, `x, `y, `p
      ensures Regs() == RegisterResult(op, variant, opcode, old(Regs()), old(Data(State())))
    {
      hide RegionMemory.Valid, InterruptUnit.Valid, InterruptUnit.Value, Data, Bit7;
      var v := Operand();
      match op {
        case LDA => a := v; p := SetZN(p, a);
        case LDX => x := v; p := SetZN(p, x);
        case LDY => y := v; p := SetZN(p, y);
        case LAX => a, x := v, v; p := SetZN(p, a);
      }
    }

    predicate IsTransfer(op: RegisterOp) {
      op.TAX? || op.TXA? || op.TAY? || op.TYA? || op.TSX? || op.TXS?
    }

    method RunTransfer(op: RegisterOp)
      requires Valid() && IsTransfer(op)
      modifies `a, `x, `y, `s, `p
      ensures Regs() == RegisterResult(op, variant, opcode, old(Regs()), old(Data(State())))
    {
      hide RegionMemory.Valid, InterruptUnit.Valid, InterruptUnit.Value, Data, Bit7;
      match op {
        case TAX => x := a; p := SetZN(p, x);
        case TXA => a := x; p := SetZN(p, a);
        case TAY => y := a; p := SetZN(p, y);
        case TYA => a := y; p := SetZN(p, a);
        case TSX => x := s; p := SetZN(p, x);
        case TXS => s := x;
      }
    }

    predicate IsCount(op: RegisterOp) {
      op.INX? || op.DEX? || op.INY? || op.DEY? || op.INCA? || op.DECA?
    }

    method RunCount(op: RegisterOp)
      requires Valid() && IsCount(op)
      modifies `a, `x, `y, `p
      ensures Regs() == RegisterResult(op, variant, opcode, old(Regs()), old(Data(State())))
    {
      hide RegionMemory.Valid, InterruptUnit.Valid, InterruptUnit.Value, Data, Bit7, Low8;
      match op {
        case INX => x := Low8(x + 1); p := SetZN(p, x);
        case DEX => x := Low8(x - 1); p := SetZN(p, x);
        case INY => y := Low8(y + 1); p := SetZN(p, y);
        case DEY => y := Low8(y - 1); p := SetZN(p, y);
        case INCA => a := Low8(a + 1); p := SetZN(p, a);
        case DECA => a := Low8(a - 1); p := SetZN(p, a);
      }
    }

    predicate IsFlag(op: RegisterOp) {
      op.CLC? || op.SEC? || op.CLI? || op.SEI? || op.CLD? || op.SED? || op.CLV?
    }

    method RunFlag(op: RegisterOp)
      requires Valid() && IsFlag(op)
      modifies `p
      ensures Regs() == RegisterResult(op, variant, opcode, old(Regs()), old(Data(State())))
    {
      hide RegionMemory.Valid, InterruptUnit.Valid, InterruptUnit.Value, Data;
      match op {
        case CLC => p := p.(c := false);
        case SEC => p := p.(c := true);
        case CLI => p := p.(i := false);
        case SEI => p := p.(i := true);
        case CLD => p := p.(d := false);
        case SED => p := p.(d := true);
        case CLV => p := p.(v := false);
      }
    }

    predicate IsCompare(op: RegisterOp) {
      op.CMP? || op.CPX? || op.CPY? || op.BIT?
    }

    method RunCompare(op: RegisterOp)
      requires Valid() && IsCompare(op)
      modifies `p
      ensures Regs() == RegisterResult(op, variant, opcode, old(Regs()), old(Data(State())))
    {
      hide RegionMemory.Valid, InterruptUnit.Valid, InterruptUnit.Value, Data, Bit7, Low8, And8, BitFlags, CompareFlags;
      var data := Operand();
      if op.BIT? {
        TestBits(data);
      } else {
        Compare(if op.CMP? then a else if op.CPX? then x else y, data);
      }
    }

    method Compare(register: uint8, data: uint8)
      modifies `p
      ensures p == CompareFlags(old(p), register, data)
    {
      p := p.(c := register >= data);
      p := SetZN(p, Low8(register - data));
    }

    predicate IsLogic(op: RegisterOp) {
      op.AND? || op.ORA? || op.EOR? || op.ADC? || op.SBC? || op.USBC? || op.ANC? || op.ALR? || op.ARR?
    }

    method RunLogic(op: RegisterOp)
      requires Valid() && IsLogic(op)
      modifies `a, `p
      ensures Regs() == RegisterResult(op, variant, opcode, old(Regs()), old(Data(State())))
    {
      hide RegionMemory.Valid, InterruptUnit.Valid, InterruptUnit.Value, Data, Bit7, Low8, And8, Or8, Xor8, Adc, Sbc, RotateArr, SetZN;
      var data := Operand();
      match op {
        case AND => a := And8(a, data); p := SetZN(p, a);
        case ORA => a := Or8(a, data); p := SetZN(p, a);
        case EOR => a := Xor8(a, data); p := SetZN(p, a);
        case ADC => AdcCore(data);
        case SBC | USBC => SbcCore(data);
        case ANC =>
          a := And8(a, data);
          p := SetZN(p, a).(c := Bit7(a));
        case ALR => AndHalve(data);
        case ARR => AndRotate(data);
      }
    }

    method AndHalve(data: uint8)
      modifies `a, `p
      ensures Regs() == RegisterResult(ALR, variant, opcode, old(Regs()), data)
    {
      hide And8, Bit7, SetZN;
      a := And8(a, data);
      p := p.(c := a % 2 == 1);
      a := a / 2;
      p := SetZN(p, a);
    }

    method AndRotate(data: uint8)
      modifies `a, `p
      ensures Regs() == RotateArr(old(Regs()), data)
    {
      hide And8, Bit7;
      a := And8(a, data);
      a := a / 2 + 0x80 * Carry(p);
      p := SetZN(p, a);
      p := p.(c := a % 0x80 >= 0x40);
      p := p.(v := p.c != (a % 0x40 >= 0x20));
    }

    method TestBits(data: uint8)
      modifies `p
      ensures p == BitFlags(old(p), a, data, opcode)
    {
      hide And8, Bit7;
      p := p.(z := And8(a, data) == 0);
      if opcode != 0x89 {
        p := p.(n := Bit7(data), v := data % 0x80 >= 0x40);
      }
    }

    lemma ExecRegister(op: RegisterOp, m: Machine)
      ensures Exec(Reg(op), m) == m.(r := RegisterResult(op, m.variant, m.latch.opcode, m.r, Data(m)))
    {
      hide RegisterResult, Data;
    }

    /** The case of `Exec` for the storing handlers. */
    lemma ExecMemory(op: MemoryOp, m: Machine)
      ensures var w := MemoryResult(op, m.variant, OpcodeMask(m.latch), m.r, Target(m));
              Exec(Mem(op), m) == m.(r := m.r.(a := w.a, p := w.p), bus := Bus.Write(m.bus, m.latch.ea, w.value))
    {
      hide MemoryResult, Target, OpcodeMask, Bus.Write;
    }

    method RunRegister(op: RegisterOp)
      requires Valid()
      modifies `a, `x, `y, `s, `p
      ensures Valid() && State() == Exec(Reg(op), old(State()))
    {
      hide RegionMemory.Valid, InterruptUnit.Valid, InterruptUnit.Value, Data, RegisterResult, Exec;
      ExecRegister(op, State());
      RunRegisterOp(op);
    }

    method RunRegisterOp(op: RegisterOp)
      requires Valid()
      modifies `a, `x, `y, `s, `p
      ensures Regs() == RegisterResult(op, variant, opcode, old(Regs()), old(Data(State())))
    {
      hide RegionMemory.Valid, InterruptUnit.Valid, InterruptUnit.Value, Data, RegisterResult, Exec;
      if IsLoad(op) {
        RunLoad(op);
      } else if IsTransfer(op) {
        RunTransfer(op);
      } else if IsCount(op) {
        RunCount(op);
      } else if IsFlag(op) {
        RunFlag(op);
      } else if IsCompare(op) {
        RunCompare(op);
      } else {
        RunLogic(op);
      }
    }

    /** What a memory instruction makes of the registers and the byte at EA. */
    ghost function MemoryEffect(op: MemoryOp): StoreResult
      requires Valid()
      reads this, memory, memory.buffers, interrupts
    {
      MemoryResult(op, variant, OpcodeMask(Globals()), Regs(), Bus.Read(memory.space, ea))
    }

    predicate IsPlainStore(op: MemoryOp) {
      op.STA? || op.STX? || op.STY? || op.STZ? || op.SAX?
    }

    method RunStore(op: MemoryOp)
      requires Valid() && IsPlainStore(op)
      modifies memory`space, memory.buffers
      ensures Valid() && StoreResult(old(MemoryEffect(op)).value, a, p) == old(MemoryEffect(op))
      ensures memory.space == Bus.Write(old(memory.space), ea, old(MemoryEffect(op)).value)
    {
      hide RegionMemory.Valid, Bus.Read, Bus.Write, And8, OpcodeMask;
      match op {
        case STA => memory.Write(ea, a);
        case STX => memory.Write(ea, x);
        case STY => memory.Write(ea, y);
        case STZ => memory.Write(ea, 0);
        case SAX => memory.Write(ea, And8(a, x));
      }
    }

    predicate IsModify(op: MemoryOp) {
      op.INC? || op.DEC? || op.TRB? || op.TSB? || op.RMB? || op.SMB?
    }

    method RunModify(op: MemoryOp)
      requires Valid() && IsModify(op)
      modifies `p, memory`space, memory.buffers
      ensures Valid() && StoreResult(old(MemoryEffect(op)).value, a, p) == old(MemoryEffect(op))
      ensures memory.space == Bus.Write(old(memory.space), ea, old(MemoryEffect(op)).value)
    {
      hide RegionMemory.Valid, Bus.Read, Bus.Write, And8, Or8, OpcodeMask, Low8, SetZN, Not8;
      var data := memory.Read(ea);
      var mask := OpcodeMask(Globals());
      match op {
        case INC => var v := Low8(data as int + 1); memory.Write(ea, v); p := SetZN(p, v);
        case DEC => var v := Low8(data as int - 1); memory.Write(ea, v); p := SetZN(p, v);
        case TRB => p := p.(z := And8(a, data) == 0); memory.Write(ea, And8(data, Not8(a)));
        case TSB => p := p.(z := And8(a, data) == 0); memory.Write(ea, Or8(data, a));
        case RMB => memory.Write(ea, And8(data, Not8(mask)));
        case SMB => memory.Write(ea, Or8(data, mask));
      }
    }

    predicate IsCounted(op: MemoryOp) {
      op.DCP? || op.ISC?
    }

    method RunCounted(op: MemoryOp)
      requires Valid() && IsCounted(op)
      modifies `a, `p, memory`space, memory.buffers
      ensures Valid() && StoreResult(old(MemoryEffect(op)).value, a, p) == old(MemoryEffect(op))
      ensures memory.space == Bus.Write(old(memory.space), ea, old(MemoryEffect(op)).value)
    {
      hide RegionMemory.Valid, Bus.Read, Bus.Write, OpcodeMask, Low8, Adc, Sbc, SetZN;
      var data := memory.Read(ea);
      if op.DCP? {
        var v := Low8(data as int - 1);
        memory.Write(ea, v);
        p := p.(c := a >= v);
        p := SetZN(p, Low8(a as int - v as int));
      } else {
        var v := Low8(data as int + 1);
        memory.Write(ea, v);
        SbcCore(v);
      }
    }

    predicate IsShifted(op: MemoryOp) {
      op.SLO? || op.RLA? || op.SRE? || op.RRA?
    }

    method RunShifted(op: MemoryOp)
      requires Valid() && IsShifted(op)
      modifies `a, `p, memory`space, memory.buffers
      ensures Valid() && StoreResult(old(MemoryEffect(op)).value, a, p) == old(MemoryEffect(op))
      ensures memory.space == Bus.Write(old(memory.space), ea, old(MemoryEffect(op)).value)
    {
      hide RegionMemory.Valid, Bus.Read, Bus.Write, And8, Or8, Xor8, OpcodeMask, Shift, Adc, Sbc, SetZN;
      var data := memory.Read(ea);
      var carry := Carry(p);
      var shifted := ShiftLeftOrRight(op, data, carry);
      p := p.(c := shifted.carry);
      memory.Write(ea, shifted.value);
      match op {
        case SLO => a := Or8(a, shifted.value); p := SetZN(p, a);
        case RLA => a := And8(a, shifted.value); p := SetZN(p, a);
        case SRE => a := Xor8(a, shifted.value); p := SetZN(p, a);
        case RRA => AdcCore(shifted.value);
      }
    }

    /** The shift half of a fused shift. */
    method ShiftLeftOrRight(op: MemoryOp, v: uint8, carry: nat) returns (s: Shifted)
      requires IsShifted(op) && carry < 2
      ensures s == Shift(if op.SLO? || op.RLA? then Left else Right, v, if op.RLA? || op.RRA? then carry else 0)
    {
      match op {
        case SLO => s := Shifted(Low8(2 * v), Bit7(v));
        case RLA => s := Shifted(Low8(2 * v) + carry, Bit7(v));
        case SRE => s := Shifted(v / 2, v % 2 == 1);
        case RRA => s := Shifted(v / 2 + 0x80 * carry, v % 2 == 1);
      }
    }

    method RunMemory(op: MemoryOp)
      requires Valid()
      modifies `a, `p, memory`space, memory.buffers
      ensures Valid() && State() == Exec(Mem(op), old(State()))
    {
      hide RegionMemory.Valid, InterruptUnit.Valid, InterruptUnit.Value, Bus.Read, Bus.Write, MemoryResult, OpcodeMask, Exec;
      ExecMemory(op, State());
      RunMemoryOp(op);
    }

    method RunMemoryOp(op: MemoryOp)
      requires Valid()
      modifies `a, `p, memory`space, memory.buffers
      ensures Valid() && StoreResult(old(MemoryEffect(op)).value, a, p) == old(MemoryEffect(op))
      ensures memory.space == Bus.Write(old(memory.space), ea, old(MemoryEffect(op)).value)
    {
      hide RegionMemory.Valid, Bus.Read, Bus.Write, MemoryResult, OpcodeMask;
      if IsPlainStore(op) {
        RunStore(op);
      } else if IsModify(op) {
        RunModify(op);
      } else if IsCounted(op) {
        RunCounted(op);
      } else {
        RunShifted(op);
      }
    }

    lemma ExecShiftCase(op: ShiftOp, m: Machine)
      ensures Exec(Shf(op), m) == ExecShift(op, m)
    {
      hide ExecShift;
    }

    method RunShift(op: ShiftOp)
      requires Valid()
      modifies `a, `p, memory`space, memory.buffers
      ensures Valid() && State() == Exec(Shf(op), old(State()))
    {
      hide RegionMemory.Valid, InterruptUnit.Valid, InterruptUnit.Value, Bus.Read, Bus.Write, SetZN, ShiftResult, Exec;
      ExecShiftCase(op, State());
      var v := a;
      if hasEa {
        v := memory.Read(ea);
      }
      var s := ShiftOnce(op, v, Carry(p));
      p := p.(c := s.carry);
      p := SetZN(p, s.value);
      if hasEa {
        memory.Write(ea, s.value);
      } else {
        a := s.value;
      }
    }

    method ShiftOnce(op: ShiftOp, v: uint8, carry: nat) returns (s: Shifted)
      requires carry == Carry(p)
      ensures s == ShiftResult(op, p, v)
    {
      match op {
        case ASL => s := Shifted(Low8(2 * v), Bit7(v));
        case LSR => s := Shifted(v / 2, v % 2 == 1);
        case ROL => s := Shifted(Low8(2 * v) + carry, Bit7(v));
        case ROR => s := Shifted(v / 2 + 0x80 * carry, v % 2 == 1);
      }
    }

    method RunBranch(op: BranchOp)
      requires Valid()
      modifies `pc, `branchTaken, `branchPageCross
      ensures Valid() && State() == Exec(Bra(op), old(State()))
    {
      hide RegionMemory.Valid, InterruptUnit.Valid, InterruptUnit.Value, Bus.Read, OpcodeMask, SamePage, Instructions.Taken;
      var taken, target := TestBranch(op);
      TakeBranch(taken, target);
    }

    method TestBranch(op: BranchOp) returns (taken: bool, target: uint16)
      requires Valid()
      ensures taken == Instructions.Taken(op, p, Bus.Read(memory.space, ea), OpcodeMask(Globals()))
      ensures target == if op == BBR || op == BBS then Low16(pc + relOffset) else ea
    {
      hide RegionMemory.Valid, Bus.Read, And8, OpcodeMask;
      taken, target := true, ea;
      match op {
        case BPL => taken := !p.n;
        case BMI => taken := p.n;
        case BVC => taken := !p.v;
        case BVS => taken := p.v;
        case BCC => taken := !p.c;
        case BCS => taken := p.c;
        case BNE => taken := !p.z;
        case BEQ => taken := p.z;
        case BRA =>
        case BBR | BBS =>
          var data := memory.Read(ea);
          var bit := And8(data, OpcodeMask(Globals()));
          taken := if op.BBR? then bit == 0 else bit != 0;
          target := Low16(pc + relOffset);
      }
    }

    method TakeBranch(taken: bool, target: uint16)
      modifies `pc, `branchTaken, `branchPageCross
      ensures if taken then pc == target && branchTaken && branchPageCross == !SamePage(old(pc), target)
              else pc == old(pc) && branchTaken == old(branchTaken) && branchPageCross == old(branchPageCross)
    {
      if taken {
        var oldPc := pc;
        pc := target;
        branchTaken := true;
        branchPageCross := !SamePage(oldPc, pc);
      }
    }

    method RunPush(op: PushOp)
      requires Valid()
      modifies `s, memory`space, memory.buffers
      ensures Valid() && State() == Exec(Psh(op), old(State()))
    {
      hide RegionMemory.Valid, InterruptUnit.Valid, InterruptUnit.Value, Stack.Push8, Pack;
      match op {
        case PHA => Push8(a);
        case PHP => Push8(Pack(p.(b := true, u := true)));
        case PHX => Push8(x);
        case PHY => Push8(y);
      }
    }

    method RunPull(op: PullOp)
      requires Valid()
      modifies `a, `x, `y, `s, `p
      ensures Valid() && State() == Exec(Pul(op), old(State()))
    {
      hide RegionMemory.Valid, InterruptUnit.Valid, InterruptUnit.Value, Exec, PullResult, Stack.Pop8;
      ExecPullCase(op, State());
      var v := Pop8();
      TakePulled(op, v);
    }

    lemma ExecPullCase(op: PullOp, m: Machine)
      ensures Exec(Pul(op), m) == ExecPull(op, m)
    {
      hide ExecPull;
    }

    method TakePulled(op: PullOp, v: uint8)
      modifies `a, `x, `y, `p
      ensures Regs() == PullResult(op, old(Regs()), v)
    {
      hide Unpack, SetZN;
      match op {
        case PLA => a := v; p := SetZN(p, a);
        case PLP => p := Unpack(v).(b := false, u := true);
        case PLX => x := v; p := SetZN(p, x);
        case PLY => y := v; p := SetZN(p, y);
      }
    }

    method RunJmp()
      requires Valid()
      modifies `pc, `cycles
      ensures Valid() && State() == Exec(JMP, old(State()))
    {
      hide RegionMemory.Valid, InterruptUnit.Valid, InterruptUnit.Value;
      pc := ea;
      if variant == CMOS && opcode == 0x6C {
        cycles := Low32(cycles + 1);
      }
    }

    method RunJsr()
      requires Valid()
      modifies `pc, `s, memory`space, memory.buffers
      ensures Valid() && State() == Exec(JSR, old(State()))
    {
      hide RegionMemory.Valid, InterruptUnit.Valid, InterruptUnit.Value, Stack.Push16;
      Push16(Low16(pc - 1));
      pc := ea;
    }

    method RunRts()
      requires Valid()
      modifies `pc, `s
      ensures Valid() && State() == Exec(RTS, old(State()))
    {
      hide RegionMemory.Valid, InterruptUnit.Valid, InterruptUnit.Value, Stack.Pop16;
      var address := Pop16();
      pc := Low16(address as int + 1);
    }

    lemma ExecRtiCase(m: Machine)
      ensures Exec(RTI, m) == ExecRti(m)
    {
    }

    method RunRti()
      requires Valid()
      modifies `pc, `s, `p
      ensures Valid() && State() == Exec(RTI, old(State()))
    {
      hide RegionMemory.Valid, InterruptUnit.Valid, InterruptUnit.Value, Stack.Pop8, Stack.Pop16, Unpack, Low16, Exec;
      ExecRtiCase(State());
      var status := Pop8();
      p := Unpack(status).(b := false, u := false);
      var address := Pop16();
      pc := Low16(address);
    }

    method InterruptBegin(kind: InterruptType)
      requires Valid()
      modifies interrupts, interrupts.history
      ensures Valid() && State() == Interrupts.Begin(old(State()), kind)
    {
      hide RegionMemory.Valid, Pack;
      interrupts.inProgress := true;
      interrupts.current := kind;
      interrupts.sequenceCycle := 0;
      interrupts.RecordInterrupt(kind, pc, Pack(p));
    }

    method InterruptEnd()
      requires Valid()
      modifies interrupts
      ensures Valid() && State() == old(State()).(ic := Interrupts.EndSequence(old(State()).ic))
    {
      hide RegionMemory.Valid;
      interrupts.inProgress := false;
      interrupts.current := NoInterrupt;
      interrupts.sequenceCycle := 0;
    }

    /** Executes the whole interrupt sequence if one has just begun. */
    method InterruptStepCycle()
      requires Valid()
      modifies `pc, `s, `p, `cycles, `waiting, memory`space, memory.buffers, interrupts
      ensures Valid() && State() == Interrupts.StepCycle(old(State()))
    {
      hide RegionMemory.Valid, Interrupts.Enter, Interrupts.EndSequence;
      if !interrupts.inProgress { return; }
      if interrupts.sequenceCycle == 0 && interrupts.current != NoInterrupt {
        EnterInterrupt(interrupts.current);
      }
      InterruptEnd();
    }

    method EnterInterrupt(kind: InterruptType)
      requires Valid()
      modifies `pc, `s, `p, `cycles, `waiting, memory`space, memory.buffers, interrupts
      ensures Valid() && State() == Interrupts.Enter(old(State()), kind)
    {
      hide RegionMemory.Valid, InterruptUnit.Valid, InterruptUnit.Value, Interrupts.PushFrame, Bus.Read16, Low32, Pack;
      if kind != Brk {
        cycles := Low32(cycles + 7);
      }
      ghost var charged := State();
      PushFrame(kind);
      StepEffects.PushFrameEffect(charged, charged, kind);
      MaskAndJump(Interrupts.Vector(kind));
      ForgetNmi(kind);
    }

    method MaskAndJump(vector: uint16)
      requires Valid()
      modifies `pc, `p, `waiting
      ensures Valid()
      ensures State() == old(State()).(waiting := false,
                r := old(Regs()).(pc := Bus.Read16(memory.space, vector), p := Interrupts.StatusOnEntry(variant, old(p))))
    {
      hide RegionMemory.Valid, InterruptUnit.Valid, InterruptUnit.Value, Bus.Read16;
      p := p.(i := true);
      if variant == CMOS {
        p := p.(d := false);
      }
      waiting := false;
      pc := BusRead16(vector);
    }

    /** Servicing an NMI clears its latch. */
    method ForgetNmi(kind: InterruptType)
      requires Valid()
      modifies interrupts`nmiPending
      ensures Valid() && State() == old(State()).(ic := old(State()).ic.(nmiPending := old(State()).ic.nmiPending && kind != Nmi))
    {
      hide RegionMemory.Valid;
      if kind == Nmi {
        interrupts.nmiPending := false;
      }
    }

    method PushFrame(kind: InterruptType)
      requires Valid()
      modifies `s, memory`space, memory.buffers
      ensures Valid() && State() == Interrupts.PushFrame(old(State()), kind)
    {
      hide RegionMemory.Valid, InterruptUnit.Valid, InterruptUnit.Value, Stack.Push8, Stack.Push16, Pack;
      KeepsPc(Interrupts.ReturnAddress(kind, pc));
      if kind == Brk {
        Push16(Low16(pc + 1));
        Push8(Pack(p.(b := true, u := true)));
      } else {
        Push16(pc);
        Push8(Pack(p.(b := false, u := true)));
      }
    }

    lemma KeepsPc(value: uint16)
      requires Valid()
      ensures Stack.Push16(State(), value).r.p == p
    {
      hide RegionMemory.Valid, InterruptUnit.Valid, InterruptUnit.Value, Bus.Write;
    }

    method RunBrk()
      requires Valid()
      modifies this, memory`space, memory.buffers, interrupts, interrupts.history
      ensures Valid() && State() == Exec(BRK, old(State()))
    {
      hide RegionMemory.Valid, InterruptUnit.Valid, InterruptUnit.Value, Interrupts.Begin, Interrupts.StepCycle;
      InterruptBegin(Brk);
      InterruptStepCycle();
    }

    /** Selects the handler by variant and opcode and runs it. */
    method Dispatch()
      requires Valid()
      modifies this, memory`space, memory.buffers, interrupts, interrupts.history
      ensures Valid() && State() == Exec(Handlers.HandlerOf(variant, old(opcode)), old(State()))
    {
      hide RegionMemory.Valid, InterruptUnit.Valid, InterruptUnit.Value, Exec, Handlers.NmosOverride, Handlers.CmosHandler;
      if variant == NMOS {
        var h := Handlers.NmosOverride(opcode);
        if h.Some? {
          RunHandler(h.value);
          return;
        }
      }
      RunHandler(Handlers.CmosHandler(opcode));
    }

    method RunHandler(h: Handler)
      requires Valid()
      modifies this, memory`space, memory.buffers, interrupts, interrupts.history
      ensures Valid() && State() == Exec(h, old(State()))
    {
      hide RegionMemory.Valid, InterruptUnit.Valid, InterruptUnit.Value;
      match h {
        case Reg(op) => RunRegister(op);
        case Mem(op) => RunMemory(op);
        case Shf(op) => RunShift(op);
        case Bra(op) => RunBranch(op);
        case Psh(op) => RunPush(op);
        case Pul(op) => RunPull(op);
        case JMP => RunJmp();
        case JSR => RunJsr();
        case RTS => RunRts();
        case RTI => RunRti();
        case BRK => RunBrk();
        case NOP | NOPREAD | ILLEGAL =>
        case WAI => waiting := true;
        case STP | KIL => stopped := true;
      }
    }

    method Reset()
      requires Valid()
      modifies this
      ensures Valid() && State() == Cpu.Reset(old(State()))
    {
      hide RegionMemory.Valid, InterruptUnit.Valid, InterruptUnit.Value, Unpack, Bus.Read16, Low32;
      ClearRegisters();
      waiting, stopped := false, false;
      cycles := Low32(cycles + 7);
    }

    method ClearRegisters()
      requires Valid()
      modifies `pc, `a, `x, `y, `s, `p
      ensures Regs() == Registers(Bus.Read16(memory.space, Cpu.RESET_VECTOR), 0, 0, 0, Cpu.RESET_STACK_POINTER,
                                  Unpack(Cpu.RESET_STATUS))
    {
      hide RegionMemory.Valid, InterruptUnit.Valid, InterruptUnit.Value, Unpack, Bus.Read16;
      a, x, y := 0, 0, 0;
      s := Cpu.RESET_STACK_POINTER;
      p := Unpack(Cpu.RESET_STATUS);
      pc := BusRead16(Cpu.RESET_VECTOR);
    }

    /** One step of the machine. */
    method Step()
      requires Valid()
      modifies this, memory`space, memory.buffers, interrupts, interrupts.history
      ensures Valid() && State() == Cpu.Step(old(State()))
    {
      hide RegionMemory.Valid, InterruptUnit.Valid, InterruptUnit.Value, Cpu.Instruction, Interrupts.Service;
      var kind := interrupts.Poll(p.i);
      if kind != NoInterrupt {
        ServiceInterrupt(kind);
        return;
      }
      if stopped { return; }
      if waiting { return; }
      RunInstruction();
    }

    method ServiceInterrupt(kind: InterruptType)
      requires Valid()
      modifies this, memory`space, memory.buffers, interrupts, interrupts.history
      ensures Valid() && State() == Interrupts.Service(old(State()), kind)
    {
      hide RegionMemory.Valid, InterruptUnit.Valid, InterruptUnit.Value, Interrupts.Begin, Interrupts.StepCycle;
      InterruptBegin(kind);
      InterruptStepCycle();
    }

    /** Fetch, cycle charge, addressing, dispatch and cycle adjustment of one instruction. */
    method RunInstruction()
      requires Valid()
      modifies this, memory`space, memory.buffers, interrupts, interrupts.history
      ensures Valid() && State() == Cpu.Instruction(old(State()))
    {
      hide RegionMemory.Valid, InterruptUnit.Valid, InterruptUnit.Value, Exec, Cpu.ModeOf, Handlers.HandlerOf,
           Cpu.Fetch, Cpu.Decode, Low32, Cpu.Penalty, Bus.Read;
      ghost var before := State();
      FetchOpcode();
      DecodeOperand(Cpu.ModeOf(variant, opcode));
      assert Cpu.NextOpcode(before) == opcode by {
        FetchedOpcode(before);
        DecodedOpcode(Cpu.NextMode(before), Cpu.Fetch(before));
      }
      Dispatch();
      cycles := Low32(cycles + Cpu.Penalty(Globals()));
    }

    lemma FetchedOpcode(m: Machine)
      ensures Cpu.Fetch(m).latch.opcode == Cpu.NextOpcode(m)
    {
      hide Cpu.CyclesOf, Low32, Low16;
    }

    lemma DecodedOpcode(mode: Mode, m: Machine)
      ensures Cpu.Decode(mode, m).latch.opcode == m.latch.opcode
    {
      hide EffectiveAddress, CrossesPage, RelOffset, Low16;
    }

    method FetchOpcode()
      requires Valid()
      modifies `pc, `opcode, `cycles
      ensures Valid() && State() == Cpu.Fetch(old(State()))
      ensures opcode == Cpu.NextOpcode(old(State()))
    {
      hide RegionMemory.Valid, InterruptUnit.Valid, InterruptUnit.Value, Cpu.CyclesOf, Low32, Bus.Read;
      opcode := Fetch8();
      cycles := Low32(cycles + Cpu.CyclesOf(variant, opcode));
    }

    method DecodeOperand(mode: Mode)
      requires Valid()
      modifies `pc, `ea, `hasEa, `pageCross, `relOffset, `branchTaken, `branchPageCross
      ensures Valid() && State() == Cpu.Decode(mode, old(State()))
    {
      hide RegionMemory.Valid, InterruptUnit.Valid, InterruptUnit.Value, Resolve;
      AddrResolve(mode);
      branchTaken, branchPageCross := false, false;
    }

    method AssertIrq()
      requires Valid()
      modifies interrupts
      ensures Valid() && State() == Runs.Apply(old(State()), Runs.IrqLine(1))
    {
      hide RegionMemory.Valid, Cpu.Step, Cpu.Reset;
      interrupts.DriveIrq(1);
    }

    /** A pulse makes a falling edge, so an NMI is pending afterwards whatever the line was. */
    method PulseNmi()
      requires Valid()
      modifies interrupts
      ensures Valid() && interrupts.nmiPending
      ensures State() == Runs.Apply(Runs.Apply(old(State()), Runs.NmiLine(1)), Runs.NmiLine(0))
    {
      hide RegionMemory.Valid, Cpu.Step, Cpu.Reset;
      interrupts.DriveNmi(1);
      interrupts.DriveNmi(0);
    }

    /** No interrupt is due and the CPU is stopped or waiting: no step will ever spend a cycle again. */
    predicate IsIdle()
      requires Valid()
      reads this, memory, memory.buffers, interrupts, interrupts.history
      ensures IsIdle() == Cycles.Idle(State())
    {
      !interrupts.nmiPending && (interrupts.irqLine == 0 || p.i) && (stopped || waiting)
    }

    /** Steps until the budget is spent. The loop of the emulator never ends on an idle machine; here it reports
        that instead. */
    method RunCycles(budget: uint32) returns (hung: bool, ghost steps: nat)
      requires Valid() && budget <= Cycles.LARGEST_BUDGET
      modifies this, memory`space, memory.buffers, interrupts, interrupts.history
      ensures Valid() && State() == Runs.Steps(old(State()), steps)
      ensures !hung ==> Cycles.Finishes(old(State()), budget, steps)
      ensures hung ==> Cycles.Hangs(old(State()), budget, steps)
    {
      hide RegionMemory.Valid, InterruptUnit.Valid, InterruptUnit.Value, Cpu.Step, Cycles.StepCost, Cycles.Idle;
      var start := cycles;
      ghost var initial := State();
      steps := 0;
      while Low32(cycles - start) < budget
        invariant Valid() && State() == Runs.Steps(initial, steps)
        invariant start == initial.cycles
        invariant forall k: nat :: k < steps ==> Cycles.Elapsed(initial, k) < budget
        invariant Cycles.Elapsed(initial, steps) <= budget + 8
        decreases budget - Cycles.Elapsed(initial, steps), Cycles.FreeStepsLeft(State())
      {
        assert Cycles.Under(initial, budget, steps);
        if IsIdle() {
          return true, steps;
        }
        Cycles.BusyProgress(State());
        Cycles.ElapsedNext(initial, steps);
        Step();
        steps := steps + 1;
      }
      hung := false;
    }
  }
}
