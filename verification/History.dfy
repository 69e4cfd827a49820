/** The history ring and the statistics as a view of the full log of interrupt events. */
module History {
  import opened Types
  import opened StatusRegister
  import opened InterruptController
  import opened MachineState
  import opened Cpu
  import opened StepEffects
  import opened Runs

  function CountKind(log: seq<Event>, kind: InterruptType): nat {
    if log == [] then 0
    else CountKind(log[..|log| - 1], kind) + (if log[|log| - 1].kind == kind then 1 else 0)
  }

  /** The last `n` events. */
  function Last(log: seq<Event>, n: nat): seq<Event>
    requires n <= |log|
  {
    log[|log| - n..]
  }

  function Kept(log: seq<Event>): nat {
    if |log| < MAX_HISTORY then |log| else MAX_HISTORY
  }

  /** The ring holds the last 32 events of the log, each at its number modulo 32, and the totals count them all. */
  ghost predicate Views(c: Controller, log: seq<Event>) {
    && (forall event :: event in log ==> event.kind != NoInterrupt)
    && c.historyCount == Kept(log)
    && c.historyIndex == |log| % MAX_HISTORY
    && (forall i {:trigger log[i]} :: |log| - Kept(log) <= i < |log| ==> c.history[i % MAX_HISTORY] == log[i])
    && c.totalIrqs == Low64(CountKind(log, Irq))
    && c.totalNmis == Low64(CountKind(log, Nmi))
    && c.totalBrks == Low64(CountKind(log, Brk))
  }

  /** The event a step records, if any. */
  function NewEvents(m: Machine): seq<Event> {
    if ServiceOf(m) == NoInterrupt then []
    else [Event(ServiceOf(m), ServicePc(m), Pack(m.r.p), Ticked(m.ic).clock)]
  }

  function LogAfter(m: Machine, e: Stimulus, log: seq<Event>): seq<Event> {
    match e
    case Tick => log + NewEvents(m)
    case ClearLog => []
    case _ => log
  }

  /** Everything recorded since the last clear. */
  function RunLog(m: Machine, run: seq<Stimulus>, log: seq<Event>): seq<Event>
    decreases run
  {
    if run == [] then log else RunLog(Apply(m, run[0]), run[1..], LogAfter(m, run[0], log))
  }

  lemma Distinct(i: nat, j: nat)
    requires j - MAX_HISTORY < i < j
    ensures i % MAX_HISTORY != j % MAX_HISTORY
  {
    var q, r := i / MAX_HISTORY, j / MAX_HISTORY;
    assert i == MAX_HISTORY * q + i % MAX_HISTORY && j == MAX_HISTORY * r + j % MAX_HISTORY;
  }

  lemma CountsAppend(log: seq<Event>, event: Event)
    ensures forall kind :: CountKind(log + [event], kind) == CountKind(log, kind) + if event.kind == kind then 1 else 0
  {
    assert (log + [event])[..|log|] == log;
  }

  /** Storing event number `|log|` at its slot keeps the other events of the window. */
  lemma WindowSlides(history: seq<Event>, log: seq<Event>, event: Event)
    requires |history| == MAX_HISTORY
    requires forall i {:trigger log[i]} :: |log| - Kept(log) <= i < |log| ==> history[i % MAX_HISTORY] == log[i]
    ensures var longer := log + [event];
            forall i {:trigger longer[i]} :: |longer| - Kept(longer) <= i < |longer| ==>
              history[|log| % MAX_HISTORY := event][i % MAX_HISTORY] == longer[i]
  {
    var longer := log + [event];
    forall i {:trigger longer[i]} | |longer| - Kept(longer) <= i < |longer|
      ensures history[|log| % MAX_HISTORY := event][i % MAX_HISTORY] == longer[i]
    {
      if i < |log| {
        Distinct(i, |log|);
        assert longer[i] == log[i];
      }
    }
  }

  lemma RecordViews(c: Controller, log: seq<Event>, kind: InterruptType, pc: uint16, p: uint8)
    requires Views(c, log) && kind != NoInterrupt
    ensures Views(Record(c, kind, pc, p), log + [Event(kind, pc, p, c.clock)])
  {
    hide CountKind, Kept;
    var event := Event(kind, pc, p, c.clock);
    CountsAppend(log, event);
    WindowSlides(c.history, log, event);
    KeptAppend(log, event);
    TotalsAppend(log, event);
    assert (|log| + 1) % MAX_HISTORY == (|log| % MAX_HISTORY + 1) % MAX_HISTORY;
  }

  lemma KeptAppend(log: seq<Event>, event: Event)
    ensures Kept(log + [event]) == if Kept(log) < MAX_HISTORY then Kept(log) + 1 else Kept(log)
  {
  }

  lemma TotalsAppend(log: seq<Event>, event: Event)
    ensures forall kind :: Low64(CountKind(log + [event], kind)) ==
              if event.kind == kind then Low64(Low64(CountKind(log, kind)) + 1) else Low64(CountKind(log, kind))
  {
    CountsAppend(log, event);
  }

  lemma ApplyViews(m: Machine, e: Stimulus, log: seq<Event>)
    requires Views(m.ic, log)
    ensures Views(Apply(m, e).ic, LogAfter(m, e, log))
  {
    hide Step, ServiceOf, ServicePc;
    if e == Tick {
      StepController(m);
      if ServiceOf(m) == NoInterrupt {
        assert log + NewEvents(m) == log;
      } else {
        RecordViews(Ticked(m.ic), log, ServiceOf(m), ServicePc(m), Pack(m.r.p));
      }
    }
  }

  /** The ring views the log in every state a run reaches. */
  lemma {:induction false} RunViews(m: Machine, run: seq<Stimulus>, log: seq<Event>)
    requires Views(m.ic, log)
    ensures Views(Run(m, run).ic, RunLog(m, run, log))
    decreases run
  {
    hide Views, Apply, LogAfter;
    if run != [] {
      ApplyViews(m, run[0], log);
      RunViews(Apply(m, run[0]), run[1..], LogAfter(m, run[0], log));
    }
  }

  /** A dump lists exactly the last events of the log, oldest first. */
  lemma DumpIsLast(c: Controller, log: seq<Event>)
    requires Views(c, log)
    ensures Dump(c) == Last(log, Kept(log))
  {
    hide CountKind;
    var n := Kept(log);
    var start := if n < MAX_HISTORY then 0 else c.historyIndex;
    forall i: nat | i < n
      ensures Dump(c)[i] == log[|log| - n + i]
    {
      SlotOfWindow(|log|, n, i);
      assert c.history[(|log| - n + i) % MAX_HISTORY] == log[|log| - n + i];
    }
  }

  lemma SlotOfWindow(total: nat, n: nat, i: nat)
    requires n == (if total < MAX_HISTORY then total else MAX_HISTORY) && i < n
    ensures ((if n < MAX_HISTORY then 0 else total % MAX_HISTORY) + i) % MAX_HISTORY == (total - n + i) % MAX_HISTORY
  {
    if total >= MAX_HISTORY {
      var q, r := total / MAX_HISTORY, total % MAX_HISTORY;
      assert total - n + i == MAX_HISTORY * (q - 1) + (r + i);
    }
  }

  lemma {:induction false} CountsTotal(log: seq<Event>)
    requires forall event :: event in log ==> event.kind != NoInterrupt
    ensures CountKind(log, Irq) + CountKind(log, Nmi) + CountKind(log, Brk) == |log|
  {
    if log != [] {
      assert log[|log| - 1] in log;
      CountsTotal(log[..|log| - 1]);
    }
  }

  lemma Low64Slot(a: nat, b: nat, c: nat)
    ensures (Low64(a) + Low64(b) + Low64(c)) % MAX_HISTORY == (a + b + c) % MAX_HISTORY
    ensures a + b + c < 0x1_0000_0000_0000_0000 ==> Low64(a) + Low64(b) + Low64(c) == a + b + c
  {
    var w := 0x1_0000_0000_0000_0000;
    var k := 0x800_0000_0000_0000;
    assert w == MAX_HISTORY * k;
    var q := a / w + b / w + c / w;
    assert a + b + c == (Low64(a) + Low64(b) + Low64(c)) + MAX_HISTORY * (k * q);
  }

  /** Index and count follow from the statistics: the index always, the count until the log outgrows 64 bits. */
  lemma StatisticsTell(c: Controller, log: seq<Event>)
    requires Views(c, log)
    ensures var total := c.totalIrqs + c.totalNmis + c.totalBrks;
            && c.historyIndex == total % MAX_HISTORY
            && (|log| < 0x1_0000_0000_0000_0000 ==>
                  total == |log| && c.historyCount == if total < MAX_HISTORY then total else MAX_HISTORY)
  {
    hide CountKind, Low64;
    CountsTotal(log);
    Low64Slot(CountKind(log, Irq), CountKind(log, Nmi), CountKind(log, Brk));
  }

  /** From a cleared controller, after any run: the dump is the tail of the log. */
  lemma DumpAfterRun(m: Machine, run: seq<Stimulus>)
    requires m.ic == Initial(m.ic.clock)
    ensures Views(Run(m, run).ic, RunLog(m, run, []))
    ensures Dump(Run(m, run).ic) == Last(RunLog(m, run, []), Kept(RunLog(m, run, [])))
  {
    hide Run, RunLog, Dump;
    assert Views(m.ic, []);
    RunViews(m, run, []);
    DumpIsLast(Run(m, run).ic, RunLog(m, run, []));
  }

  /** Stamps rise strictly along the log and none is ahead of the clock. */
  ghost predicate Stamped(log: seq<Event>, clock: nat) {
    && (forall i, j :: 0 <= i < j < |log| ==> log[i].cycle < log[j].cycle)
    && (forall i :: 0 <= i < |log| ==> log[i].cycle <= clock)
  }

  function Ticks(run: seq<Stimulus>): nat {
    if run == [] then 0 else (if run[0] == Tick then 1 else 0) + Ticks(run[1..])
  }

  lemma ApplyStamped(m: Machine, e: Stimulus, log: seq<Event>)
    requires Stamped(log, m.ic.clock)
    requires m.ic.clock + 1 < 0x1_0000_0000_0000_0000
    ensures Stamped(LogAfter(m, e, log), Apply(m, e).ic.clock)
    ensures Apply(m, e).ic.clock == m.ic.clock + if e == Tick then 1 else 0
  {
    hide Step, ServiceOf, ServicePc, Pack;
    if e == Tick {
      StepController(m);
      assert Step(m).ic.clock == Ticked(m.ic).clock;
      if ServiceOf(m) == NoInterrupt {
        assert log + NewEvents(m) == log;
      }
    }
  }

  /** Until the 64-bit poll counter wraps, the log's cycle stamps are strictly increasing. */
  lemma {:induction false} StampsIncrease(m: Machine, run: seq<Stimulus>, log: seq<Event>)
    requires Stamped(log, m.ic.clock)
    requires m.ic.clock + Ticks(run) + 1 < 0x1_0000_0000_0000_0000
    ensures Stamped(RunLog(m, run, log), Run(m, run).ic.clock)
    decreases run
  {
    hide Apply, LogAfter, Stamped;
    if run != [] {
      ApplyStamped(m, run[0], log);
      StampsIncrease(Apply(m, run[0]), run[1..], LogAfter(m, run[0], log));
    }
  }
}
