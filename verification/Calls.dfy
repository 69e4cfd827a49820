/** Subroutine calls over whole runs, interrupts included: every RTS continues after the JSR it closes. */
module Calls {
  import opened Types
  import opened InterruptController
  import opened MachineState
  import opened Stack
  import opened Instructions
  import opened Cpu
  import opened Frame
  import opened StepEffects
  import opened Runs
  import opened Footprint
  import opened StackDepth
  import opened StackDiscipline
  import Addressing
  import Handlers
  import Bus

  /** A JSR whose RTS has not been executed: the address after it, and S before it. */
  datatype Caller = Caller(next: uint16, s: uint8)

  /** JSR saves the address of its own last byte. */
  function LastByte(c: Caller): uint16 {
    Low16(c.next - 1)
  }

  predicate Enters(m: Machine) {
    Dispatches(m) && NextHandler(m) == JSR
  }

  predicate Leaves(m: Machine) {
    Dispatches(m) && NextHandler(m) == RTS
  }

  predicate Holds(bus: Bus.Space, c: Caller) {
    && Bus.Read(bus, Slot(c.s)) == HighByte(LastByte(c))
    && Bus.Read(bus, Slot(Low8(c.s - 1))) == LowByte(LastByte(c))
  }

  predicate ReturnedTo(c: Caller, t: Machine) {
    t.r.pc == c.next && t.r.s == c.s
  }

  /** The calls open after a stimulus, innermost last; JSR is three bytes long. */
  function Track(m: Machine, e: Stimulus, callers: seq<Caller>): seq<Caller> {
    if e != Tick then callers
    else if Enters(m) then callers + [Caller(Low16(m.r.pc + 3), m.r.s)]
    else if Leaves(m) && callers != [] then callers[..|callers| - 1]
    else callers
  }

  function Tops(callers: seq<Caller>): seq<uint8> {
    seq(|callers|, i requires 0 <= i < |callers| => callers[i].s)
  }

  function DepthsAfter(m: Machine, e: Stimulus, d: Depths): Depths {
    if e != Tick then d
    else if Enters(m) then Opened(d)
    else if Leaves(m) && d.levels != [] then Closed(d)
    else DepthsWithin(m, d)
  }

  /** The discipline of subroutines: no more than 256 bytes outstanding since the outermost call, no push over a
      saved address after pulling into it, S at an RTS as its JSR left it, no store to a saved address. Interrupt
      services are ordinary pushes here. */
  ghost predicate Behaves(m: Machine, e: Stimulus, callers: seq<Caller>, d: Depths) {
    && e != PowerReset
    && (e == Tick ==>
          && HasRoom(d, Pushes(m))
          && (Leaves(m) ==> callers != [] && m.r.s == Low8(callers[|callers| - 1].s - 2))
          && (Dispatches(m) && StoresEa(NextHandler(m), Decoded(m).latch.hasEa) ==>
                forall c :: c in callers ==> Decoded(m).latch.ea !in SlotsBelow(c.s, 2)))
  }

  ghost predicate RunBehaves(m: Machine, run: seq<Stimulus>, callers: seq<Caller>, d: Depths)
    decreases run
  {
    run == [] ||
    (Behaves(m, run[0], callers, d) &&
     RunBehaves(Apply(m, run[0]), run[1..], Track(m, run[0], callers), DepthsAfter(m, run[0], d)))
  }

  /** Every RTS of the run continues after the JSR it closes, with S as it was before that JSR. */
  predicate RunReturns(m: Machine, run: seq<Stimulus>, callers: seq<Caller>)
    decreases run
  {
    run == [] ||
    ((run[0] == Tick && Leaves(m) && callers != [] ==> ReturnedTo(callers[|callers| - 1], Step(m))) &&
     RunReturns(Apply(m, run[0]), run[1..], Track(m, run[0], callers)))
  }

  ghost predicate AllHeld(bus: Bus.Space, callers: seq<Caller>) {
    StackInRam(bus) && forall c :: c in callers ==> Holds(bus, c)
  }

  lemma TwoSlots(s: uint8)
    ensures SlotsBelow(s, 2) == {Slot(s), Slot(Low8(s - 1))}
  {
    hide Low8;
    assert SlotsBelow(Low8(s - 1), 1) == {Slot(Low8(s - 1))};
  }

  lemma HoldsOutside(bus: Bus.Space, after: Bus.Space, written: set<uint16>, c: Caller)
    requires Holds(bus, c) && Bus.AgreeOutside(bus, after, written) && written !! SlotsBelow(c.s, 2)
    ensures Holds(after, c)
  {
    hide Bus.Read, SlotsBelow;
    TwoSlots(c.s);
  }

  lemma OnlyOpcode20IsJsr(variant: Variant, op: uint8)
    requires Handlers.HandlerOf(variant, op) == JSR
    ensures ModeOf(variant, op) == Addressing.Abs
  {
    hide Handlers.NmosOverride, Handlers.CmosHandler;
    NoOverrideIsJsr(op);
    OnlyCmos20IsJsr(op);
  }

  lemma NoOverrideIsJsr(op: uint8)
    ensures Handlers.NmosOverride(op) != Some(JSR)
  {
  }

  lemma OnlyCmos20IsJsr(op: uint8)
    ensures Handlers.CmosHandler(op) == JSR ==> op == 0x20
  {
  }

  /** The handler saves the address of the byte before PC. */
  lemma JsrHolds(m: Machine)
    requires StackInRam(m.bus)
    ensures Holds(ExecJsr(m).bus, Caller(m.r.pc, m.r.s))
  {
    hide HighByte, LowByte;
    var word := Low16(m.r.pc - 1);
    var m1 := Push8(m, HighByte(word));
    Bus.WriteAgrees(m.bus, Slot(m.r.s), HighByte(word));
    Bus.WriteAgrees(m1.bus, Slot(m1.r.s), LowByte(word));
    StackStaysInRam(m.bus, m1.bus, {Slot(m.r.s)});
  }

  lemma JsrOpens(m: Machine)
    requires StackInRam(m.bus) && Enters(m)
    ensures Holds(Step(m).bus, Caller(Low16(m.r.pc + 3), m.r.s))
  {
    hide Step, NextHandler, NextMode, Decode, Fetch, ExecJsr, Holds, StackInRam, Bus.AgreeOutside, ModeOf;
    DecodeEffect(NextMode(m), Polled(m));
    StepDispatch(m);
    JsrMode(m);
    JsrHolds(Decoded(m));
  }

  lemma JsrMode(m: Machine)
    requires NextHandler(m) == JSR
    ensures NextMode(m) == Addressing.Abs
  {
    OnlyOpcode20IsJsr(m.variant, NextOpcode(m));
  }

  /** RTS undoes the pushes of a JSR. */
  lemma RtsReturns(m: Machine, c: Caller)
    requires Holds(m.bus, c) && m.r.s == Low8(c.s - 2)
    ensures ReturnedTo(c, ExecRts(m))
  {
    hide Bus.Read, LowByte, HighByte, Word;
    WordOfBytes(LastByte(c));
    NextSlots(m.r.s, c.s);
  }

  lemma NextSlots(s: uint8, saved: uint8)
    requires s == Low8(saved - 2)
    ensures Low8(s + 1) == Low8(saved - 1) && Low8(Low8(s + 1) + 1) == saved
  {
  }

  lemma RtsStep(m: Machine, c: Caller)
    requires Leaves(m) && Holds(m.bus, c) && m.r.s == Low8(c.s - 2)
    ensures ReturnedTo(c, Step(m))
  {
    hide Step, NextHandler, NextMode, Decode, Fetch, Bus.AgreeOutside, Holds, ExecRts;
    DecodeEffect(NextMode(m), Polled(m));
    StepDispatch(m);
    RtsReturns(Decoded(m), c);
  }

  lemma WritesMissSaved(m: Machine, callers: seq<Caller>, d: Depths)
    requires d.saved == 2 && Placed(d, m.r.s, Tops(callers)) && Behaves(m, Tick, callers, d)
    ensures forall c :: c in callers ==> StepWrites(m) !! SlotsBelow(c.s, 2)
  {
    hide Step, NextHandler, NextMode, Decode, Fetch, SlotsBelow, HasRoom, Placed;
    DecodeEffect(NextMode(m), Polled(m));
    PushesMissSaved(d, m.r.s, Tops(callers), Pushes(m));
    forall c | c in callers
      ensures SlotsBelow(m.r.s, Pushes(m)) !! SlotsBelow(c.s, 2)
    {
      var i :| 0 <= i < |callers| && callers[i] == c;
      assert Tops(callers)[i] == c.s;
    }
  }

  lemma StepHolds(m: Machine, callers: seq<Caller>, d: Depths)
    requires d.saved == 2 && Placed(d, m.r.s, Tops(callers)) && Behaves(m, Tick, callers, d)
    requires AllHeld(m.bus, callers)
    ensures AllHeld(Step(m).bus, Track(m, Tick, callers))
    ensures Leaves(m) ==> ReturnedTo(callers[|callers| - 1], Step(m))
  {
    hide Step, StepWrites, Holds, StackInRam, ReturnedTo, Enters, Leaves, Placed, HasRoom, Bus.AgreeOutside, StoresEa, NextHandler,
         Decoded, Dispatches, Pushes, SlotsBelow, Tops;
    var t := Step(m);
    StepFootprint(m);
    StackStaysInRam(m.bus, t.bus, StepWrites(m));
    WritesMissSaved(m, callers, d);
    forall c | c in callers
      ensures Holds(t.bus, c)
    {
      HoldsOutside(m.bus, t.bus, StepWrites(m), c);
    }
    if Enters(m) {
      JsrOpens(m);
    }
    if Leaves(m) {
      RtsStep(m, callers[|callers| - 1]);
    }
  }

  lemma StepPlaced(m: Machine, callers: seq<Caller>, d: Depths)
    requires d.saved == 2 && Placed(d, m.r.s, Tops(callers)) && Behaves(m, Tick, callers, d)
    ensures Placed(DepthsAfter(m, Tick, d), Step(m).r.s, Tops(Track(m, Tick, callers)))
  {
    hide Step, NextHandler, Decoded, SlotsBelow, StoresEa, Low8, Floor, Opened, Closed, Moved, SetTo, SlotAt;
    StepStackPointer(m);
    var after := Track(m, Tick, callers);
    if Enters(m) {
      assert Tops(after) == Tops(callers) + [m.r.s];
      OpenedPlaced(d, m.r.s, Tops(callers));
    } else if Leaves(m) {
      assert Tops(after) == Tops(callers)[..|callers| - 1];
      ClosedPlaced(d, m.r.s, Tops(callers));
    } else {
      WithinPlaced(m, d, Tops(callers));
    }
  }

  lemma {:induction false} RunReturnsFrom(m: Machine, run: seq<Stimulus>, callers: seq<Caller>, d: Depths)
    requires d.saved == 2 && Placed(d, m.r.s, Tops(callers)) && RunBehaves(m, run, callers, d)
    requires AllHeld(m.bus, callers)
    ensures RunReturns(m, run, callers)
    decreases run
  {
    hide Placed, Behaves, Track, Step, AllHeld, Tops, ReturnedTo, Leaves;
    if run != [] {
      ApplyKeeps(m, run[0], callers, d);
      RunReturnsFrom(Apply(m, run[0]), run[1..], Track(m, run[0], callers), DepthsAfter(m, run[0], d));
    }
  }

  lemma ApplyKeeps(m: Machine, e: Stimulus, callers: seq<Caller>, d: Depths)
    requires d.saved == 2 && Placed(d, m.r.s, Tops(callers)) && Behaves(m, e, callers, d)
    requires AllHeld(m.bus, callers)
    ensures DepthsAfter(m, e, d).saved == 2
    ensures Placed(DepthsAfter(m, e, d), Apply(m, e).r.s, Tops(Track(m, e, callers)))
    ensures AllHeld(Apply(m, e).bus, Track(m, e, callers))
    ensures e == Tick && Leaves(m) ==> callers != [] && ReturnedTo(callers[|callers| - 1], Step(m))
  {
    hide Step, Placed, Enters, Leaves, SetsStackPointer, Pushes, Pulls, HasRoom, AllHeld, Tops, ReturnedTo;
    if e == Tick {
      StepPlaced(m, callers, d);
      StepHolds(m, callers, d);
    } else {
      assert e != PowerReset;
    }
  }

  /** In every disciplined run, from any S, each RTS continues at the byte after the JSR it closes. */
  lemma DisciplinedCallsReturn(m: Machine, run: seq<Stimulus>)
    requires StackInRam(m.bus) && RunBehaves(m, run, [], Depths(m.r.s, 2, 0, []))
    ensures RunReturns(m, run, [])
  {
    hide RunBehaves, RunReturns, StackInRam;
    assert Tops([]) == [];
    RunReturnsFrom(m, run, [], Depths(m.r.s, 2, 0, []));
  }

  const MAX_CALLS: nat := 128

  /** Only JSR and RTS use the stack, at most 128 calls deep, and no store goes to page 1. */
  predicate CallsOnly(m: Machine, e: Stimulus, callers: seq<Caller>) {
    && e != PowerReset
    && (e == Tick ==>
          && ServiceOf(m) == NoInterrupt
          && (Enters(m) ==> |callers| < MAX_CALLS)
          && (Leaves(m) ==> callers != [])
          && (!Enters(m) && !Leaves(m) ==> Pushes(m) == Pulls(m) == 0 && !SetsStackPointer(m))
          && (Dispatches(m) && StoresEa(NextHandler(m), Decoded(m).latch.hasEa) ==>
                !(STACK_START <= Decoded(m).latch.ea < STACK_START + 0x100)))
  }

  predicate RunCallsOnly(m: Machine, run: seq<Stimulus>, callers: seq<Caller>)
    decreases run
  {
    run == [] || (CallsOnly(m, run[0], callers) && RunCallsOnly(Apply(m, run[0]), run[1..], Track(m, run[0], callers)))
  }

  /** Depths when `count` calls and nothing else are on the stack. */
  function CallDepths(base: uint8, count: nat): Depths {
    Depths(base, 2, 2 * count, seq(count, i => 2 * i))
  }

  lemma CallDepthsMove(base: uint8, count: nat)
    ensures Opened(CallDepths(base, count)) == CallDepths(base, count + 1)
    ensures Closed(CallDepths(base, count + 1)) == CallDepths(base, count)
    ensures Moved(CallDepths(base, count), 0, 0) == CallDepths(base, count)
    ensures HasRoom(CallDepths(base, count), 0)
    ensures count < MAX_CALLS ==> HasRoom(CallDepths(base, count), 2)
  {
    assert CallDepths(base, count).levels + [2 * count] == CallDepths(base, count + 1).levels;
    assert CallDepths(base, count + 1).levels[..count] == CallDepths(base, count).levels;
  }

  lemma CallsOnlyBehaves(m: Machine, e: Stimulus, callers: seq<Caller>, base: uint8)
    requires Placed(CallDepths(base, |callers|), m.r.s, Tops(callers)) && CallsOnly(m, e, callers)
    ensures Behaves(m, e, callers, CallDepths(base, |callers|))
    ensures DepthsAfter(m, e, CallDepths(base, |callers|)) == CallDepths(base, |Track(m, e, callers)|)
  {
    hide NextHandler, Decoded, SlotsBelow, StoresEa, HasRoom, Opened, Closed, Moved, SetTo;
    CallDepthsMove(base, |callers|);
    if callers != [] {
      CallDepthsMove(base, |callers| - 1);
      TopOfCalls(base, m.r.s, callers);
    }
    if e == Tick {
      forall c | c in callers
        ensures SlotsBelow(c.s, 2) == {Slot(c.s), Slot(Low8(c.s - 1))}
      {
        TwoSlots(c.s);
      }
    }
  }

  lemma TopOfCalls(base: uint8, s: uint8, callers: seq<Caller>)
    requires Placed(CallDepths(base, |callers|), s, Tops(callers)) && callers != []
    ensures s == Low8(callers[|callers| - 1].s - 2)
  {
    var last := |callers| - 1;
    assert Tops(callers)[last] == SlotAt(base, 2 * last);
  }

  lemma {:induction false} RunCallsOnlyBehaves(m: Machine, run: seq<Stimulus>, callers: seq<Caller>, base: uint8)
    requires Placed(CallDepths(base, |callers|), m.r.s, Tops(callers)) && AllHeld(m.bus, callers)
    requires RunCallsOnly(m, run, callers)
    ensures RunBehaves(m, run, callers, CallDepths(base, |callers|))
    decreases run
  {
    hide Placed, Behaves, CallsOnly, Track, Step, AllHeld, Tops, CallDepths;
    if run != [] {
      var d := CallDepths(base, |callers|);
      assert d.saved == 2 by { SavesTwo(base, |callers|); }
      CallsOnlyBehaves(m, run[0], callers, base);
      ApplyKeeps(m, run[0], callers, d);
      RunCallsOnlyBehaves(Apply(m, run[0]), run[1..], Track(m, run[0], callers), base);
    }
  }

  lemma SavesTwo(base: uint8, count: nat)
    ensures CallDepths(base, count).saved == 2
  {
  }

  /** Calls nested up to 128 deep, with anything but stack instructions between them, all return. */
  lemma NestedCallsReturn(m: Machine, run: seq<Stimulus>)
    requires StackInRam(m.bus) && RunCallsOnly(m, run, [])
    ensures RunReturns(m, run, [])
  {
    hide RunBehaves, RunReturns, StackInRam, RunCallsOnly;
    assert Tops([]) == [];
    assert CallDepths(m.r.s, 0) == Depths(m.r.s, 2, 0, []);
    RunCallsOnlyBehaves(m, run, [], m.r.s);
    DisciplinedCallsReturn(m, run);
  }
}
