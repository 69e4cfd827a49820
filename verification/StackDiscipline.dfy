/** The ordinary stack discipline of nested handlers, counted in outstanding bytes, keeps every saved byte. */
module StackDiscipline {
  import opened Types
  import opened InterruptController
  import opened MachineState
  import opened Stack
  import opened Instructions
  import opened Cpu
  import opened Frame
  import opened StepEffects
  import opened Runs
  import opened Nesting
  import opened StackDepth

  /** S as the open services found it. */
  function Tops(open: seq<Open>): seq<uint8> {
    seq(|open|, i requires 0 <= i < |open| => open[i].r.s)
  }

  function Pushes(m: Machine): nat {
    if ServiceOf(m) != NoInterrupt then 3
    else if Dispatches(m) then PushCount(NextHandler(m))
    else 0
  }

  function Pulls(m: Machine): nat {
    if Dispatches(m) then PullCount(NextHandler(m)) else 0
  }

  predicate SetsStackPointer(m: Machine) {
    Dispatches(m) && NextHandler(m) == Reg(TXS)
  }

  /** Depths after a step that neither opens nor closes a frame. */
  function DepthsWithin(m: Machine, d: Depths): Depths {
    if SetsStackPointer(m) then SetTo(d, m.r.x) else Moved(d, Pushes(m), Pulls(m))
  }

  function DepthsAfter(m: Machine, e: Stimulus, d: Depths): Depths {
    if e != Tick then d
    else if ServiceOf(m) != NoInterrupt then Opened(d)
    else if Returns(m) && d.levels != [] then Closed(d)
    else DepthsWithin(m, d)
  }

  /** The discipline of nested handlers: no more than 256 bytes outstanding since the outermost service, no push
      over saved bytes after pulling into them, S at an RTI as its service left it, no store to a saved byte. Pulls
      and TXS are free. */
  ghost predicate Behaves(m: Machine, e: Stimulus, open: seq<Open>, d: Depths) {
    && e != PowerReset
    && (e == Tick ==>
          && HasRoom(d, Pushes(m))
          && (Returns(m) ==> open != [] && m.r.s == Low8(open[|open| - 1].r.s - 3))
          && (Dispatches(m) && StoresEa(NextHandler(m), Decoded(m).latch.hasEa) ==>
                forall o :: o in open ==> Decoded(m).latch.ea !in SavedSlots(o)))
  }

  ghost predicate RunBehaves(m: Machine, run: seq<Stimulus>, open: seq<Open>, d: Depths)
    decreases run
  {
    run == [] ||
    (Behaves(m, run[0], open, d) &&
     RunBehaves(Apply(m, run[0]), run[1..], Track(m, run[0], open), DepthsAfter(m, run[0], d)))
  }

  lemma BehavesRespects(m: Machine, e: Stimulus, open: seq<Open>, d: Depths)
    requires d.saved == 3 && Placed(d, m.r.s, Tops(open)) && Behaves(m, e, open, d)
    ensures Respects(m, e, open)
  {
    hide Step, NextHandler, NextMode, Decode, Fetch, SlotsBelow, HasRoom, Placed;
    if e == Tick {
      DecodeEffect(NextMode(m), Polled(m));
      PushesMissSaved(d, m.r.s, Tops(open), Pushes(m));
      forall o | o in open
        ensures SlotsBelow(m.r.s, Pushes(m)) !! SavedSlots(o)
      {
        assert o.r.s in Tops(open) by { TopIn(open, o); }
      }
    }
  }

  lemma TopIn(open: seq<Open>, o: Open)
    requires o in open
    ensures o.r.s in Tops(open)
  {
    var i :| 0 <= i < |open| && open[i] == o;
    assert Tops(open)[i] == o.r.s;
  }

  /** A step that is no service, no TXS and, unless `closes` it, no return: S and the depths move alike. */
  lemma WithinPlaced(m: Machine, d: Depths, tops: seq<uint8>)
    requires Placed(d, m.r.s, tops)
    ensures Placed(DepthsWithin(m, d), Step(m).r.s, tops)
  {
    hide Step, NextHandler, Placed, SetTo, Moved, Low8;
    StepStackPointer(m);
    MovedPlaced(d, m.r.s, tops, Pushes(m), Pulls(m));
    SetPlaced(d, m.r.s, tops, m.r.x);
    Low8Self(m.r.s);
  }

  lemma Low8Self(s: uint8)
    ensures Low8(s) == s
  {
  }

  lemma StepPlaced(m: Machine, open: seq<Open>, d: Depths)
    requires d.saved == 3 && Placed(d, m.r.s, Tops(open)) && Behaves(m, Tick, open, d)
    ensures Placed(DepthsAfter(m, Tick, d), Step(m).r.s, Tops(Track(m, Tick, open)))
  {
    hide Step, NextHandler, Decoded, SlotsBelow, StoresEa, ServicePc, Low8, Floor, Opened, Closed, Moved, SetTo, SlotAt;
    StepStackPointer(m);
    var after := Track(m, Tick, open);
    if ServiceOf(m) != NoInterrupt {
      assert Tops(after) == Tops(open) + [m.r.s];
      OpenedPlaced(d, m.r.s, Tops(open));
    } else if Returns(m) {
      assert Tops(after) == Tops(open)[..|open| - 1];
      ClosedPlaced(d, m.r.s, Tops(open));
    } else {
      WithinPlaced(m, d, Tops(open));
    }
  }

  /** A run of well-behaved handlers never overwrites a saved byte. */
  lemma {:induction false} DisciplinedRunRespects(m: Machine, run: seq<Stimulus>, open: seq<Open>, d: Depths)
    requires d.saved == 3 && Placed(d, m.r.s, Tops(open)) && RunBehaves(m, run, open, d)
    ensures RunRespects(m, run, open)
    decreases run
  {
    hide Placed, Behaves, Respects, Track, DepthsAfter, Step;
    if run != [] {
      BehavesRespects(m, run[0], open, d);
      ApplyPlaced(m, run[0], open, d);
      DisciplinedRunRespects(Apply(m, run[0]), run[1..], Track(m, run[0], open), DepthsAfter(m, run[0], d));
    }
  }

  lemma ApplyPlaced(m: Machine, e: Stimulus, open: seq<Open>, d: Depths)
    requires d.saved == 3 && Placed(d, m.r.s, Tops(open)) && Behaves(m, e, open, d)
    ensures Placed(DepthsAfter(m, e, d), Apply(m, e).r.s, Tops(Track(m, e, open))) && DepthsAfter(m, e, d).saved == 3
  {
    hide Step, Placed, ServiceOf, Returns, SetsStackPointer, Pushes, Pulls, HasRoom;
    if e == Tick {
      StepPlaced(m, open, d);
    } else {
      assert e != PowerReset;
    }
  }

  /** Well-bracketed nested services with at most 256 bytes outstanding since the outermost one: every RTI restores
      PC, S and flags. */
  lemma DisciplinedNesting(m: Machine, run: seq<Stimulus>)
    requires StackInRam(m.bus) && RunBehaves(m, run, [], Depths(m.r.s, 3, 0, []))
    ensures RunRestores(m, run, [])
  {
    hide RunBehaves, RunRestores, RunRespects, StackInRam;
    assert Tops([]) == [];
    DisciplinedRunRespects(m, run, [], Depths(m.r.s, 3, 0, []));
    NestedServicesTransparent(m, run, []);
  }
}
