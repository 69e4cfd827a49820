/** Nested interrupt services and their RTIs: every level gets back what its service saved. */
module Nesting {
  import opened Types
  import opened StatusRegister
  import opened InterruptController
  import opened MachineState
  import opened Stack
  import opened Instructions
  import opened Cpu
  import opened Frame
  import opened StepEffects
  import opened Runs
  import opened Footprint
  import Interrupts
  import Handlers
  import Addressing
  import Bus

  /** A service whose RTI has not been executed: its kind and the registers it interrupted. */
  datatype Open = Open(kind: InterruptType, r: Registers)

  function ReturnPc(o: Open): uint16 {
    Interrupts.ReturnAddress(o.kind, o.r.pc)
  }

  function SavedSlots(o: Open): set<uint16> {
    SlotsBelow(o.r.s, 3)
  }

  /** The three saved bytes are still on the stack. */
  predicate Holds(bus: Bus.Space, o: Open) {
    && Bus.Read(bus, Slot(o.r.s)) == HighByte(ReturnPc(o))
    && Bus.Read(bus, Slot(Low8(o.r.s - 1))) == LowByte(ReturnPc(o))
    && Bus.Read(bus, Slot(Low8(o.r.s - 2))) == Interrupts.PushedStatus(o.kind, o.r.p)
  }

  /** PC, S and the six real flags are back; B and U are clear. */
  predicate Restored(o: Open, t: Machine) {
    t.r.pc == ReturnPc(o) && t.r.s == o.r.s && SameFlags(t.r.p, o.r.p) && !t.r.p.b && !t.r.p.u
  }

  predicate Returns(m: Machine) {
    Dispatches(m) && NextHandler(m) == RTI
  }

  /** The open services after a stimulus, innermost last. */
  function Track(m: Machine, e: Stimulus, open: seq<Open>): seq<Open> {
    if e != Tick then open
    else if ServiceOf(m) != NoInterrupt then open + [Open(ServiceOf(m), m.r.(pc := ServicePc(m)))]
    else if Returns(m) && open != [] then open[..|open| - 1]
    else open
  }

  /** The stimulus leaves every saved byte alone, and an RTI finds S where its service left it. */
  ghost predicate Respects(m: Machine, e: Stimulus, open: seq<Open>) {
    && e != PowerReset
    && (e == Tick ==>
          && (forall o :: o in open ==> StepWrites(m) !! SavedSlots(o))
          && (Returns(m) ==> open != [] && m.r.s == Low8(open[|open| - 1].r.s - 3)))
  }

  ghost predicate RunRespects(m: Machine, run: seq<Stimulus>, open: seq<Open>)
    decreases run
  {
    run == [] || (Respects(m, run[0], open) && RunRespects(Apply(m, run[0]), run[1..], Track(m, run[0], open)))
  }

  function RunTrack(m: Machine, run: seq<Stimulus>, open: seq<Open>): seq<Open>
    decreases run
  {
    if run == [] then open else RunTrack(Apply(m, run[0]), run[1..], Track(m, run[0], open))
  }

  /** Every RTI of the run restores the service it closes. */
  predicate RunRestores(m: Machine, run: seq<Stimulus>, open: seq<Open>)
    decreases run
  {
    run == [] ||
    ((run[0] == Tick && Returns(m) && open != [] ==> Restored(open[|open| - 1], Step(m))) &&
     RunRestores(Apply(m, run[0]), run[1..], Track(m, run[0], open)))
  }

  lemma ThreeSlots(s: uint8)
    ensures SlotsBelow(s, 3) == {Slot(s), Slot(Low8(s - 1)), Slot(Low8(s - 2))}
  {
    hide Low8;
    var s1, s2 := Low8(s - 1), Low8(s - 2);
    TwoDown(s);
    assert SlotsBelow(s2, 1) == {Slot(s2)};
    assert SlotsBelow(s1, 2) == {Slot(s1)} + SlotsBelow(s2, 1);
  }

  lemma TwoDown(s: uint8)
    ensures Low8(Low8(s - 1) - 1) == Low8(s - 2)
  {
  }

  lemma HoldsOutside(bus: Bus.Space, after: Bus.Space, written: set<uint16>, o: Open)
    requires Holds(bus, o) && Bus.AgreeOutside(bus, after, written) && written !! SavedSlots(o)
    ensures Holds(after, o)
  {
    hide Bus.Read, SlotsBelow;
    ThreeSlots(o.r.s);
  }

  /** A service saves what its RTI will need. */
  lemma PushFrameHolds(m: Machine, kind: InterruptType)
    requires StackInRam(m.bus)
    ensures Holds(Interrupts.PushFrame(m, kind).bus, Open(kind, m.r))
  {
    hide Pack, HighByte, LowByte;
    var address := Interrupts.ReturnAddress(kind, m.r.pc);
    var m1 := Push8(m, HighByte(address));
    var m2 := Push8(m1, LowByte(address));
    var m3 := Push8(m2, Interrupts.PushedStatus(kind, m.r.p));
    Bus.WriteAgrees(m.bus, Slot(m.r.s), HighByte(address));
    Bus.WriteAgrees(m1.bus, Slot(m1.r.s), LowByte(address));
    Bus.WriteAgrees(m2.bus, Slot(m2.r.s), Interrupts.PushedStatus(kind, m.r.p));
    StackStaysInRam(m.bus, m1.bus, {Slot(m.r.s)});
    StackStaysInRam(m1.bus, m2.bus, {Slot(m1.r.s)});
    assert m3 == Interrupts.PushFrame(m, kind);
  }

  /** The saved bytes still say the return address and the six real flags. */
  predicate StillSays(bus: Bus.Space, o: Open) {
    && Word(Bus.Read(bus, Slot(Low8(o.r.s - 1))), Bus.Read(bus, Slot(o.r.s))) == ReturnPc(o)
    && SameFlags(Unpack(Bus.Read(bus, Slot(Low8(o.r.s - 2)))), o.r.p)
  }

  /** With S where the service left it, RTI restores what was interrupted iff the saved bytes still say it. */
  lemma RtiRestoresIff(m: Machine, o: Open)
    requires m.r.s == Low8(o.r.s - 3)
    ensures Restored(o, ExecRti(m)) <==> StillSays(m.bus, o)
  {
    hide Unpack, Bus.Read, Low8, Word, Interrupts.ReturnAddress;
    PopSlots(m.r.s, o.r.s);
  }

  lemma HeldStillSays(bus: Bus.Space, o: Open)
    requires Holds(bus, o)
    ensures StillSays(bus, o)
  {
    hide Pack, Unpack, Bus.Read, Low8, LowByte, HighByte, Interrupts.ReturnAddress;
    UnpackPack(o.r.p.(b := o.kind == Brk, u := true));
    WordOfBytes(ReturnPc(o));
  }

  /** RTI undoes the pushes of a service. */
  lemma RtiRestores(m: Machine, o: Open)
    requires Holds(m.bus, o) && m.r.s == Low8(o.r.s - 3)
    ensures Restored(o, ExecRti(m))
  {
    hide Holds, StillSays, ExecRti, Restored;
    HeldStillSays(m.bus, o);
    RtiRestoresIff(m, o);
  }

  /** The whole of P comes back iff B and U were clear before. */
  lemma WholeStatusRestored(o: Open, t: Machine)
    requires Restored(o, t)
    ensures t.r.p == o.r.p <==> !o.r.p.b && !o.r.p.u
  {
  }

  /** A handler that pulls the saved status into A, loads another byte and pushes that. */
  function ReplaceTopByte(m: Machine, value: uint8): Machine {
    var pulled := Exec(Pul(PLA), m);
    var loaded := Exec(Reg(LDA), pulled.(latch := pulled.latch.(hasEa := false, ea := value)));
    Exec(Psh(PHA), loaded)
  }

  /** Such a handler finds S where the service left it, PC and S still come back, and RTI restores the flags iff
      the new byte has the same six. */
  lemma ReplacedStatus(m: Machine, o: Open, value: uint8)
    requires StackInRam(m.bus) && Holds(m.bus, o) && m.r.s == Low8(o.r.s - 3)
    ensures var t := ReplaceTopByte(m, value);
            && t.r.s == m.r.s
            && ExecRti(t).r.pc == ReturnPc(o) && ExecRti(t).r.s == o.r.s
            && (Restored(o, ExecRti(t)) <==> SameFlags(Unpack(value), o.r.p))
  {
    hide Holds, ReplaceTopByte, StackInRam, Unpack, Bus.Read, Word, Low8, SameFlags, Interrupts.ReturnAddress;
    var t := ReplaceTopByte(m, value);
    ReplacedByte(m, o, value);
    HeldStillSays(m.bus, o);
    PopSlots(t.r.s, o.r.s);
    RtiRestoresIff(t, o);
  }

  lemma DownAgain(s: uint8)
    ensures Low8(Low8(s + 1) - 1) == s
  {
  }

  lemma LowSlotsDiffer(s: uint8)
    ensures Low8(s - 2) != s && Low8(s - 2) != Low8(s - 1)
  {
  }

  lemma ReplacedByte(m: Machine, o: Open, value: uint8)
    requires StackInRam(m.bus) && m.r.s == Low8(o.r.s - 3)
    ensures var t := ReplaceTopByte(m, value);
            && t.r.s == m.r.s
            && Bus.Read(t.bus, Slot(Low8(o.r.s - 2))) == value
            && Bus.Read(t.bus, Slot(Low8(o.r.s - 1))) == Bus.Read(m.bus, Slot(Low8(o.r.s - 1)))
            && Bus.Read(t.bus, Slot(o.r.s)) == Bus.Read(m.bus, Slot(o.r.s))
  {
    hide Bus.Write, Bus.Read, SetZN, Low8;
    var top := Low8(o.r.s - 2);
    PopSlots(m.r.s, o.r.s);
    DownAgain(m.r.s);
    LowSlotsDiffer(o.r.s);
    Bus.WriteAgrees(m.bus, Slot(top), value);
  }

  lemma PopSlots(s: uint8, saved: uint8)
    requires s == Low8(saved - 3)
    ensures Low8(s + 1) == Low8(saved - 2)
    ensures Low8(Low8(s + 1) + 1) == Low8(saved - 1)
    ensures Low8(Low8(Low8(s + 1) + 1) + 1) == saved
  {
  }

  ghost predicate AllHeld(bus: Bus.Space, open: seq<Open>) {
    StackInRam(bus) && forall o :: o in open ==> Holds(bus, o)
  }

  lemma ServiceOpens(m: Machine)
    requires StackInRam(m.bus) && ServiceOf(m) != NoInterrupt
    ensures Holds(Step(m).bus, Open(ServiceOf(m), m.r.(pc := ServicePc(m))))
  {
    hide Step, NextHandler, NextMode, Exec, Decode, Fetch, Interrupts.PushFrame, Record, Bus.AgreeOutside,
         Holds, StackInRam;
    if Due(m) != NoInterrupt {
      StepService(m);
      PushFrameHolds(Polled(m), Due(m));
    } else {
      DecodeEffect(NextMode(m), Polled(m));
      StepBrk(m);
      PushFrameHolds(Decoded(m), Brk);
    }
  }

  /** The same for the RTI of a running machine. */
  lemma RtiStepIff(m: Machine, o: Open)
    requires Returns(m) && m.r.s == Low8(o.r.s - 3)
    ensures Restored(o, Step(m)) <==> StillSays(m.bus, o)
  {
    hide Step, NextHandler, NextMode, Decode, Fetch, Bus.AgreeOutside, StillSays, ReturnPc, ExecRti;
    DecodeEffect(NextMode(m), Polled(m));
    StepDispatch(m);
    RtiRestoresIff(Decoded(m), o);
  }

  lemma RtiStep(m: Machine, o: Open)
    requires Returns(m) && Holds(m.bus, o) && m.r.s == Low8(o.r.s - 3)
    ensures Restored(o, Step(m))
  {
    hide Step, Returns, Holds, StillSays, Restored;
    HeldStillSays(m.bus, o);
    RtiStepIff(m, o);
  }

  lemma ApplyHolds(m: Machine, e: Stimulus, open: seq<Open>)
    requires AllHeld(m.bus, open) && Respects(m, e, open)
    ensures AllHeld(Apply(m, e).bus, Track(m, e, open))
    ensures e == Tick && Returns(m) ==> open != [] && Restored(open[|open| - 1], Step(m))
  {
    hide Step, StepWrites, Holds, StackInRam, Restored, ServiceOf, ServicePc, Returns, Bus.AgreeOutside, Reset;
    if e == Tick {
      var t := Step(m);
      StepFootprint(m);
      StackStaysInRam(m.bus, t.bus, StepWrites(m));
      forall o | o in open
        ensures Holds(t.bus, o)
      {
        HoldsOutside(m.bus, t.bus, StepWrites(m), o);
      }
      if ServiceOf(m) != NoInterrupt {
        ServiceOpens(m);
      }
      if Returns(m) {
        RtiStep(m, open[|open| - 1]);
      }
    }
  }

  /** In a well-bracketed run that never overwrites a saved byte, every RTI at every level restores PC, S and
      the flags of the service it closes. */
  lemma {:induction false} NestedServicesTransparent(m: Machine, run: seq<Stimulus>, open: seq<Open>)
    requires AllHeld(m.bus, open) && RunRespects(m, run, open)
    ensures RunRestores(m, run, open)
    ensures AllHeld(Run(m, run).bus, RunTrack(m, run, open))
    decreases run
  {
    hide AllHeld, Respects, Apply, Track, Restored, Returns, Step;
    if run != [] {
      ApplyHolds(m, run[0], open);
      NestedServicesTransparent(Apply(m, run[0]), run[1..], Track(m, run[0], open));
    }
  }

  lemma {:induction false} RespectsSplits(m: Machine, first: seq<Stimulus>, second: seq<Stimulus>, open: seq<Open>)
    requires RunRespects(m, first + second, open)
    ensures RunRespects(m, first, open)
    ensures RunRespects(Run(m, first), second, RunTrack(m, first, open))
    decreases first
  {
    hide Respects, Apply, Track;
    if first == [] {
      assert first + second == second;
    } else {
      assert (first + second)[1..] == first[1..] + second;
      RespectsSplits(Apply(m, first[0]), first[1..], second, Track(m, first[0], open));
    }
  }

  lemma BrkReturnAddress(m: Machine)
    requires ServiceOf(m) == Brk
    ensures Interrupts.ReturnAddress(Brk, ServicePc(m)) == Low16(m.r.pc + 2)
  {
    hide Step, Fetch, Decode, Handlers.HandlerOf, ModeOf;
    DecodeEffect(NextMode(m), Polled(m));
    BrkOpcode(m.variant, NextOpcode(m));
  }

  lemma BrkOpcode(variant: Variant, op: uint8)
    requires Handlers.HandlerOf(variant, op) == BRK
    ensures ModeOf(variant, op) == Addressing.Implied
  {
    OnlyOpcode0IsBrk(variant, op);
  }

  lemma OnlyOpcode0IsBrk(variant: Variant, op: uint8)
    requires Handlers.HandlerOf(variant, op) == BRK
    ensures op == 0
  {
    hide Handlers.NmosOverride, Handlers.CmosHandler;
    NoOverrideIsBrk(op);
    OnlyCmos0IsBrk(op);
  }

  lemma NoOverrideIsBrk(op: uint8)
    ensures Handlers.NmosOverride(op) != Some(BRK)
  {
  }

  lemma OnlyCmos0IsBrk(op: uint8)
    ensures Handlers.CmosHandler(op) == BRK ==> op == 0
  {
  }

  /** A service and everything up to its own RTI change nothing of PC, S and the flags: IRQ and NMI resume the
      interrupted instruction, BRK two bytes past its opcode. */
  lemma ServiceTransparent(m: Machine, body: seq<Stimulus>)
    requires ServiceOf(m) != NoInterrupt && StackInRam(m.bus)
    requires var o := Open(ServiceOf(m), m.r.(pc := ServicePc(m)));
             && RunRespects(Step(m), body + [Tick], [o])
             && RunTrack(Step(m), body, [o]) == [o] && Returns(Run(Step(m), body))
    ensures var t := Run(Step(m), body + [Tick]);
            && t.r.pc == (if ServiceOf(m) == Brk then Low16(m.r.pc + 2) else m.r.pc)
            && t.r.s == m.r.s && SameFlags(t.r.p, m.r.p) && !t.r.p.b && !t.r.p.u
  {
    hide Step, StepWrites, Holds, Bus.AgreeOutside, ServiceOf, ServicePc, StackInRam, Run, RunTrack, RunRespects,
         Returns, ReturnPc, SameFlags;
    var o := Open(ServiceOf(m), m.r.(pc := ServicePc(m)));
    var t := Step(m);
    StepFootprint(m);
    StackStaysInRam(m.bus, t.bus, StepWrites(m));
    ServiceOpens(m);
    RespectsSplits(t, body, [Tick], [o]);
    NestedServicesTransparent(t, body, [o]);
    var last := Run(t, body);
    LastRespects(last, [o]);
    RtiStep(last, o);
    RunAppend(t, body, [Tick]);
    RunOne(last);
    ReturnPcOf(m);
  }

  lemma LastRespects(m: Machine, open: seq<Open>)
    requires RunRespects(m, [Tick], open)
    ensures Respects(m, Tick, open)
  {
  }

  lemma RunOne(m: Machine)
    ensures Run(m, [Tick]) == Step(m)
  {
    hide Step;
    assert [Tick][1..] == [];
    assert Run(Step(m), []) == Step(m);
  }

  lemma ReturnPcOf(m: Machine)
    requires ServiceOf(m) != NoInterrupt
    ensures ReturnPc(Open(ServiceOf(m), m.r.(pc := ServicePc(m)))) ==
            if ServiceOf(m) == Brk then Low16(m.r.pc + 2) else m.r.pc
  {
    hide Step;
    if ServiceOf(m) == Brk {
      BrkReturnAddress(m);
    }
  }
}
