/** The disassembler's walk over memory, and its agreement with execution on straight-line code. */
module Disassembler {
  import opened Types
  import opened InterruptController
  import opened MachineState
  import opened Addressing
  import opened Cpu
  import opened Frame
  import opened StepEffects
  import opened Runs
  import opened Memory
  import Footprint
  import InstructionTable
  import Bus

  /** Operand bytes the disassembler prints for a mode. */
  function OperandSize(mode: Mode): nat {
    if mode.Imm? || mode.Zp? || mode.ZpX? || mode.ZpY? || mode.IndX? || mode.IndY? || mode.Rel? || mode.ZpInd? then 1
    else if mode.Abs? || mode.AbsX? || mode.AbsY? || mode.Ind? || mode.ZpRel? || mode.AbsIndX? then 2
    else 0
  }

  datatype Line = Line(addr: uint16, opcode: uint8, operands: seq<uint8>)

  /** `n` bytes from `addr` on, wrapping at the top of memory. */
  function BytesAt(s: Bus.Space, addr: int, n: nat): seq<uint8> {
    if n == 0 then [] else BytesAt(s, addr, n - 1) + [Bus.Read(s, Low16(addr + n - 1))]
  }

  function LineAt(s: Bus.Space, addr: uint16): Line {
    var opcode := Bus.Read(s, addr);
    Line(addr, opcode, BytesAt(s, addr + 1, OperandSize(InstructionTable.TableMode(opcode))))
  }

  function NextLine(s: Bus.Space, addr: uint16): uint16 {
    Low16(addr + 1 + OperandSize(InstructionTable.TableMode(Bus.Read(s, addr))))
  }

  /** Address of line number `n` of a listing. */
  function LineAddress(s: Bus.Space, start: uint16, n: nat): uint16 {
    if n == 0 then start else NextLine(s, LineAddress(s, start, n - 1))
  }

  method ReadBytes(mem: RegionMemory, addr: int, n: nat) returns (bytes: seq<uint8>)
    requires mem.Valid()
    ensures bytes == BytesAt(mem.space, addr, n)
  {
    hide RegionMemory.Valid, Bus.Read;
    bytes := [];
    var j := 0;
    while j < n
      invariant 0 <= j <= n && bytes == BytesAt(mem.space, addr, j)
    {
      var b := mem.Read(Low16(addr + j));
      bytes := bytes + [b];
      j := j + 1;
    }
  }

  /** Prints the listing, here as the sequence of its lines. */
  method Disassemble(mem: RegionMemory, start: uint16, count: int) returns (lines: seq<Line>)
    requires mem.Valid()
    ensures |lines| == if count < 0 then 0 else count
    ensures forall i :: 0 <= i < |lines| ==> lines[i] == LineAt(mem.space, LineAddress(mem.space, start, i))
  {
    hide InstructionTable.TableMode, BytesAt, Bus.Read, OperandSize, RegionMemory.Valid, Low16;
    var addr := start;
    lines := [];
    var i := 0;
    while i < count
      invariant 0 <= i && (count >= 0 ==> i <= count) && (count < 0 ==> i == 0) && |lines| == i
      invariant addr == LineAddress(mem.space, start, i)
      invariant forall k :: 0 <= k < i ==> lines[k] == LineAt(mem.space, LineAddress(mem.space, start, k))
    {
      var opcode := mem.Read(addr);
      var operandSize := OperandSize(InstructionTable.TableMode(opcode));
      var operands := ReadBytes(mem, addr as int + 1, operandSize);
      lines := lines + [Line(addr, opcode, operands)];
      addr := Low16(addr as int + 1 + operandSize);
      i := i + 1;
    }
  }

  /** The next step dispatches an opcode out of read-only memory that no variant re-addresses, and falls through. */
  predicate FallsThrough(m: Machine) {
    && Dispatches(m)
    && !Bus.Writable(m.bus, m.r.pc)
    && ModeOverride(m.variant, NextOpcode(m)).None?
    && !Jumps(NextHandler(m)) && !Step(m).latch.branchTaken
  }

  predicate StraightLine(m: Machine, n: nat) {
    forall k: nat :: k < n ==> FallsThrough(Steps(m, k))
  }

  lemma FallThroughPc(m: Machine)
    requires FallsThrough(m)
    ensures Step(m).r.pc == NextLine(m.bus, m.r.pc)
  {
    hide Step, NextHandler, Decode, Fetch, ModeOverride, InstructionTable.TableMode, Executed, Bus.AgreeOutside;
    DecodeEffect(NextMode(m), Polled(m));
    StepDispatch(m);
    SameSize(NextMode(m));
  }

  lemma SameSize(mode: Mode)
    ensures OperandSize(mode) == OperandBytes(mode)
  {
  }

  lemma {:induction false} ReadOnlyStays(m: Machine, n: nat, addr: uint16)
    ensures Bus.Writable(Steps(m, n).bus, addr) == Bus.Writable(m.bus, addr)
    ensures !Bus.Writable(m.bus, addr) ==> Bus.Read(Steps(m, n).bus, addr) == Bus.Read(m.bus, addr)
  {
    hide Step;
    if n > 0 {
      ReadOnlyStays(m, n - 1, addr);
      Footprint.StepFootprint(Steps(m, n - 1));
    }
  }

  /** Along straight-line code PC after n steps is the address after n lines of the listing made beforehand. */
  lemma {:induction false} ListingFollowsExecution(m: Machine, n: nat)
    requires StraightLine(m, n)
    ensures Steps(m, n).r.pc == LineAddress(m.bus, m.r.pc, n)
  {
    hide Step, FallsThrough, InstructionTable.TableMode;
    if n > 0 {
      ListingFollowsExecution(m, n - 1);
      var before := Steps(m, n - 1);
      assert FallsThrough(before);
      FallThroughPc(before);
      ReadOnlyCode(before);
      ReadOnlyStays(m, n - 1, before.r.pc);
    }
  }

  lemma ReadOnlyCode(m: Machine)
    requires FallsThrough(m)
    ensures !Bus.Writable(m.bus, m.r.pc)
  {
  }
}
