/** The wrapping page-1 stack behaves as a last-in first-out stack of up to 256 bytes, from any S. */
module CircularStack {
  import opened Types
  import opened MachineState
  import opened Stack
  import Bus

  datatype StackOp = Push8Op(byte: uint8) | Push16Op(word: uint16) | Pop8Op | Pop16Op

  const CAPACITY: nat := 0x100

  /** The abstract stack, top last. */
  type Bytes = seq<uint8>

  predicate Allowed(op: StackOp, depth: nat) {
    match op
    case Push8Op(_) => depth + 1 <= CAPACITY
    case Push16Op(_) => depth + 2 <= CAPACITY
    case Pop8Op => depth >= 1
    case Pop16Op => depth >= 2
  }

  function Abstract(op: StackOp, bytes: Bytes): Bytes
    requires Allowed(op, |bytes|)
  {
    match op
    case Push8Op(b) => bytes + [b]
    case Push16Op(w) => bytes + [HighByte(w), LowByte(w)]
    case Pop8Op => bytes[..|bytes| - 1]
    case Pop16Op => bytes[..|bytes| - 2]
  }

  /** What the operation answers; pushes answer 0. */
  function AbstractAnswer(op: StackOp, bytes: Bytes): uint16
    requires Allowed(op, |bytes|)
  {
    match op
    case Pop8Op => bytes[|bytes| - 1]
    case Pop16Op => Word(bytes[|bytes| - 1], bytes[|bytes| - 2])
    case _ => 0
  }

  function Concrete(op: StackOp, m: Machine): Machine {
    match op
    case Push8Op(b) => Push8(m, b)
    case Push16Op(w) => Push16(m, w)
    case Pop8Op => Pop8(m).1
    case Pop16Op => Pop16(m).1
  }

  function ConcreteAnswer(op: StackOp, m: Machine): uint16 {
    match op
    case Pop8Op => Pop8(m).0
    case Pop16Op => Pop16(m).0
    case _ => 0
  }

  function SlotOf(base: uint8, i: nat): uint16 {
    Slot(Low8(base - i))
  }

  /** The machine started with S at `base` and now holds exactly these bytes. */
  ghost predicate Represents(m: Machine, base: uint8, bytes: Bytes) {
    && |bytes| <= CAPACITY
    && m.r.s == Low8(base - |bytes|)
    && StackInRam(m.bus)
    && forall i :: 0 <= i < |bytes| ==> Bus.Read(m.bus, SlotOf(base, i)) == bytes[i]
  }

  lemma SlotsDiffer(base: uint8, i: nat, j: nat)
    requires i < j < CAPACITY
    ensures SlotOf(base, i) != SlotOf(base, j)
  {
  }

  lemma PushRepresents(m: Machine, base: uint8, bytes: Bytes, b: uint8)
    requires Represents(m, base, bytes) && |bytes| < CAPACITY
    ensures Represents(Push8(m, b), base, bytes + [b])
    ensures Bus.AgreeOutside(m.bus, Push8(m, b).bus, {Slot(m.r.s)})
  {
    var t := Push8(m, b);
    Bus.WriteAgrees(m.bus, Slot(m.r.s), b);
    forall i | 0 <= i < |bytes| + 1
      ensures Bus.Read(t.bus, SlotOf(base, i)) == (bytes + [b])[i]
    {
      if i < |bytes| {
        SlotsDiffer(base, i, |bytes|);
      }
    }
    StackStaysInRam(m.bus, t.bus, {Slot(m.r.s)});
  }

  lemma PopRepresents(m: Machine, base: uint8, bytes: Bytes)
    requires Represents(m, base, bytes) && bytes != []
    ensures Represents(Pop8(m).1, base, bytes[..|bytes| - 1])
    ensures Pop8(m).0 == bytes[|bytes| - 1]
    ensures Pop8(m).1.bus == m.bus
  {
    hide Bus.Read, StackInRam;
    assert Low8(m.r.s + 1) == Low8(base - (|bytes| - 1));
  }

  function StackPage(): set<uint16> {
    set s: uint8 :: Slot(s)
  }

  /** One operation: same answer, same bytes, nothing outside page 1. */
  lemma OpRefines(op: StackOp, m: Machine, base: uint8, bytes: Bytes)
    requires Represents(m, base, bytes) && Allowed(op, |bytes|)
    ensures Represents(Concrete(op, m), base, Abstract(op, bytes))
    ensures ConcreteAnswer(op, m) == AbstractAnswer(op, bytes)
    ensures Bus.AgreeOutside(m.bus, Concrete(op, m).bus, StackPage())
  {
    hide Push8, Pop8, Represents, Bus.AgreeOutside;
    match op
    case Push8Op(b) =>
      PushRepresents(m, base, bytes, b);
      Widen(m.bus, Push8(m, b).bus, m.r.s);
    case Push16Op(w) =>
      var m1, b1 := Push8(m, HighByte(w)), bytes + [HighByte(w)];
      PushRepresents(m, base, bytes, HighByte(w));
      Widen(m.bus, m1.bus, m.r.s);
      assert |b1| < CAPACITY;
      PushRepresents(m1, base, b1, LowByte(w));
      Widen(m1.bus, Push8(m1, LowByte(w)).bus, m1.r.s);
      Bus.AgreeTransitive(m.bus, m1.bus, Push8(m1, LowByte(w)).bus, StackPage(), StackPage());
      assert StackPage() + StackPage() == StackPage();
      assert b1 + [LowByte(w)] == Abstract(op, bytes);
    case Pop8Op =>
      PopRepresents(m, base, bytes);
      Bus.AgreeSelf(m.bus, StackPage());
    case Pop16Op =>
      var b1 := bytes[..|bytes| - 1];
      PopRepresents(m, base, bytes);
      PopRepresents(Pop8(m).1, base, b1);
      assert b1[..|b1| - 1] == bytes[..|bytes| - 2];
      Bus.AgreeSelf(m.bus, StackPage());
  }

  lemma Widen(bus: Bus.Space, after: Bus.Space, s: uint8)
    requires Bus.AgreeOutside(bus, after, {Slot(s)})
    ensures Bus.AgreeOutside(bus, after, StackPage())
  {
    assert Slot(s) in StackPage();
  }

  /** The interleaving never holds more than 256 bytes and never pops what it did not push. */
  predicate WellFormed(ops: seq<StackOp>, bytes: Bytes) {
    ops == [] || (Allowed(ops[0], |bytes|) && WellFormed(ops[1..], Abstract(ops[0], bytes)))
  }

  function RunConcrete(ops: seq<StackOp>, m: Machine): (seq<uint16>, Machine) {
    if ops == [] then ([], m)
    else
      var (answers, t) := RunConcrete(ops[1..], Concrete(ops[0], m));
      ([ConcreteAnswer(ops[0], m)] + answers, t)
  }

  function RunAbstract(ops: seq<StackOp>, bytes: Bytes): (seq<uint16>, Bytes)
    requires WellFormed(ops, bytes)
  {
    if ops == [] then ([], bytes)
    else
      var (answers, t) := RunAbstract(ops[1..], Abstract(ops[0], bytes));
      ([AbstractAnswer(ops[0], bytes)] + answers, t)
  }

  /** From any S: every interleaving answers exactly as the abstract stack does and writes page 1 only. */
  lemma {:induction false} RefinesLifo(ops: seq<StackOp>, m: Machine, base: uint8, bytes: Bytes)
    requires Represents(m, base, bytes) && WellFormed(ops, bytes)
    ensures var (answers, t) := RunConcrete(ops, m);
            && answers == RunAbstract(ops, bytes).0
            && Represents(t, base, RunAbstract(ops, bytes).1)
            && Bus.AgreeOutside(m.bus, t.bus, StackPage())
    decreases ops
  {
    hide Concrete, ConcreteAnswer, Abstract, AbstractAnswer, Represents, Bus.AgreeOutside;
    if ops == [] {
      Bus.AgreeSelf(m.bus, StackPage());
    } else {
      var m1 := Concrete(ops[0], m);
      OpRefines(ops[0], m, base, bytes);
      RefinesLifo(ops[1..], m1, base, Abstract(ops[0], bytes));
      Bus.AgreeTransitive(m.bus, m1.bus, RunConcrete(ops[1..], m1).1.bus, StackPage(), StackPage());
      assert StackPage() + StackPage() == StackPage();
    }
  }
}
