/** Where each addressing mode finds its operand, said of the bytes in memory. */
module AddressModes {
  import opened Types
  import opened MachineState
  import opened Addressing
  import opened Cpu
  import opened StepEffects
  import opened StepMeaning
  import Bus

  /** Byte `i` of the next instruction, its opcode being byte 0. */
  function CodeByte(m: Machine, i: nat): uint8 {
    Bus.Read(m.bus, (m.r.pc + i) % 0x1_0000)
  }

  /** The operand word of a three-byte instruction. */
  function CodeWord(m: Machine): uint16 {
    CodeByte(m, 1) + 0x100 * CodeByte(m, 2)
  }

  /** `word` is stored with its low byte at `lo` and its high byte at `hi`. */
  predicate Stored(bus: Bus.Space, lo: uint16, hi: uint16, word: uint16) {
    Bus.Read(bus, lo) == word % 0x100 && Bus.Read(bus, hi) == word / 0x100
  }

  /** `word` is stored in page 0, whose last byte is followed by its first. */
  predicate StoredInPage0(bus: Bus.Space, zp: uint8, word: uint16) {
    Stored(bus, zp, (zp + 1) % 0x100, word)
  }

  lemma FetchedCode(m: Machine)
    ensures var f := Fetch(Polled(m));
            && f.bus == m.bus && f.variant == m.variant && f.r == m.r.(pc := (m.r.pc + 1) % 0x1_0000)
            && Operand8(f) == CodeByte(m, 1) && Operand16(f) == CodeWord(m)
  {
    hide CyclesOf, Bus.Read;
    assert Low16(Low16(m.r.pc + 1) + 1) == (m.r.pc + 2) % 0x1_0000;
  }

  lemma PointerIs(m: Machine, zp: uint8, word: uint16)
    requires StoredInPage0(m.bus, zp, word)
    ensures ZeroPagePointer(m, zp) == word
  {
    hide Bus.Read;
  }

  lemma WordIs(bus: Bus.Space, addr: uint16, word: uint16)
    requires Stored(bus, addr, (addr + 1) % 0x1_0000, word)
    ensures Bus.Read16(bus, addr) == word
  {
    hide Bus.Read;
  }

  /** Immediate, page 0 and absolute: the operand itself. */
  lemma DirectModes(m: Machine)
    ensures NextMode(m).Imm? ==> !Addressed(m) && Operand(m) == CodeByte(m, 1)
    ensures NextMode(m).Zp? || NextMode(m).ZpRel? ==> Addressed(m) && Address(m) == CodeByte(m, 1)
    ensures NextMode(m).Abs? ==> Addressed(m) && Address(m) == CodeWord(m)
  {
    hide NextMode, Fetch, Bus.Read, CodeByte, CodeWord, Operand8, Operand16;
    FetchedCode(m);
  }

  /** Indexing in page 0 wraps within it; indexing a word wraps in the address space. */
  lemma IndexedModes(m: Machine)
    ensures NextMode(m).ZpX? ==> Addressed(m) && Address(m) == (CodeByte(m, 1) + m.r.x) % 0x100
    ensures NextMode(m).ZpY? ==> Addressed(m) && Address(m) == (CodeByte(m, 1) + m.r.y) % 0x100
    ensures NextMode(m).AbsX? ==> Addressed(m) && Address(m) == (CodeWord(m) + m.r.x) % 0x1_0000
    ensures NextMode(m).AbsY? ==> Addressed(m) && Address(m) == (CodeWord(m) + m.r.y) % 0x1_0000
  {
    hide NextMode, Fetch, Bus.Read, CodeByte, CodeWord, Operand8, Operand16;
    FetchedCode(m);
  }

  lemma Low8Sum(a: int, b: int)
    ensures Low8(a + b) == Low8(b + a) == (a + b) % 0x100
  {
  }

  /** (zp,X): the word stored at the operand shifted by X, whatever the other cells hold. */
  lemma IndexedIndirect(m: Machine, word: uint16)
    requires NextMode(m).IndX? && StoredInPage0(m.bus, (CodeByte(m, 1) + m.r.x) % 0x100, word)
    ensures Addressed(m) && Address(m) == word
  {
    hide NextMode, Fetch, Bus.Read, CodeByte, Operand8, ZeroPagePointer, StoredInPage0, Low8;
    FetchedCode(m);
    var f, zp := Fetch(Polled(m)), Low8(m.r.x + CodeByte(m, 1));
    assert zp == (CodeByte(m, 1) + m.r.x) % 0x100 by { Low8Sum(m.r.x, CodeByte(m, 1)); }
    PointerIs(f, zp, word);
  }

  /** (zp),Y: the word stored at the operand, shifted by Y; (zp): that word. */
  lemma IndirectIndexed(m: Machine, word: uint16)
    requires StoredInPage0(m.bus, CodeByte(m, 1), word)
    ensures NextMode(m).IndY? ==> Addressed(m) && Address(m) == (word + m.r.y) % 0x1_0000
    ensures NextMode(m).ZpInd? ==> Addressed(m) && Address(m) == word
  {
    hide NextMode, Fetch, Bus.Read, CodeByte, Operand8, ZeroPagePointer, StoredInPage0;
    FetchedCode(m);
    PointerIs(Fetch(Polled(m)), CodeByte(m, 1), word);
  }

  /** JMP (abs): the word stored at the operand; on NMOS a pointer at $xxFF takes its high byte from $xx00. */
  lemma IndirectJump(m: Machine, word: uint16)
    requires NextMode(m).Ind?
    requires var at := CodeWord(m);
             if m.variant == NMOS && at % 0x100 == 0xFF then Stored(m.bus, at, at / 0x100 * 0x100, word)
             else Stored(m.bus, at, (at + 1) % 0x1_0000, word)
    ensures Address(m) == word
  {
    hide NextMode, Fetch, Bus.Read, Bus.Read16, CodeByte, CodeWord, Operand8, Operand16;
    FetchedCode(m);
    var at := CodeWord(m);
    if m.variant == NMOS && at % 0x100 == 0xFF {
      assert at - 0xFF == at / 0x100 * 0x100;
    } else {
      WordIs(m.bus, at, word);
    }
  }

  /** JMP (abs,X): the word stored at the operand shifted by X. */
  lemma IndexedIndirectJump(m: Machine, word: uint16)
    requires NextMode(m).AbsIndX?
    requires var at := (CodeWord(m) + m.r.x) % 0x1_0000; Stored(m.bus, at, (at + 1) % 0x1_0000, word)
    ensures Address(m) == word
  {
    hide NextMode, Fetch, Bus.Read, Bus.Read16, CodeByte, CodeWord, Operand8, Operand16;
    FetchedCode(m);
    WordIs(m.bus, (CodeWord(m) + m.r.x) % 0x1_0000, word);
  }

  /** The address `offset` bytes from `from`, the offset being a byte in two's complement: -128 to 127. */
  function Displaced(from: uint16, offset: uint8): uint16 {
    (from + if offset < 0x80 then offset else offset - 0x100) % 0x1_0000
  }

  /** A branch target lies -128..127 bytes from the next instruction. */
  lemma RelativeTarget(m: Machine)
    requires NextMode(m).Rel?
    ensures !Addressed(m) && Address(m) == Displaced(Following(m), CodeByte(m, 1))
  {
    hide NextMode, Fetch, Bus.Read, CodeByte, CodeWord, Operand8, Operand16;
    FetchedCode(m);
    RelativeSum(m.r.pc, Signed8(CodeByte(m, 1)));
  }

  lemma RelativeSum(pc: uint16, d: int)
    ensures Low16((pc + 1) % 0x1_0000 + 1 + d) == Low16(Low16(pc + 2) + d)
  {
  }

  /** BBR and BBS branch by their third byte. */
  lemma BitBranchTarget(m: Machine)
    requires NextMode(m).ZpRel?
    ensures Low16(Following(m) + Decoded(m).latch.relOffset) == Displaced(Following(m), CodeByte(m, 2))
  {
    hide NextMode, CyclesOf, Bus.Read, EffectiveAddress, CrossesPage;
    assert Low16(Low16(m.r.pc + 1) + 1) == (m.r.pc + 2) % 0x1_0000;
  }

  /** The page is crossed iff the indexed address lies in another page than the address before indexing. */
  lemma PageCrossings(m: Machine, word: uint16)
    requires NextMode(m).AbsX? || NextMode(m).AbsY? ==> word == CodeWord(m)
    requires NextMode(m).IndY? ==> StoredInPage0(m.bus, CodeByte(m, 1), word)
    ensures Crosses(m) <==>
            (NextMode(m).AbsX? || NextMode(m).AbsY? || NextMode(m).IndY?) && Address(m) / 0x100 != word / 0x100
  {
    hide NextMode, Fetch, Bus.Read, CodeByte, CodeWord, Operand8, Operand16, ZeroPagePointer, StoredInPage0;
    FetchedCode(m);
    if NextMode(m).IndY? {
      PointerIs(Fetch(Polled(m)), CodeByte(m, 1), word);
    }
  }
}
