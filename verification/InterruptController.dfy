/** Interrupt lines, the NMI edge latch, the event history ring and the statistics. */
module InterruptController {
  import opened Types

  const MAX_HISTORY: nat := 32

  datatype InterruptType = NoInterrupt | Irq | Nmi | Brk

  datatype Event = Event(kind: InterruptType, pc: uint16, p: uint8, cycle: uint64)

  const NO_EVENT := Event(NoInterrupt, 0, 0, 0)

  /** Lines keep the integers they were driven with; `clock` is the global poll counter. */
  datatype ControllerRecord = ControllerRecord(
    irqLine: int, irqLinePrev: int, nmiLine: int, nmiLinePrev: int, nmiPending: bool,
    inProgress: bool, current: InterruptType, sequenceCycle: nat,
    history: seq<Event>, historyCount: nat, historyIndex: nat,
    totalIrqs: uint64, totalNmis: uint64, totalBrks: uint64, clock: uint64)

  type Controller = c: ControllerRecord |
      |c.history| == MAX_HISTORY && c.historyCount <= MAX_HISTORY && c.historyIndex < MAX_HISTORY
    witness ControllerRecord(0, 0, 0, 0, false, false, NoInterrupt, 0,
                             seq(MAX_HISTORY, _ => NO_EVENT), 0, 0, 0, 0, 0, 0)

  function NoEvents(): seq<Event> {
    seq(MAX_HISTORY, _ => NO_EVENT)
  }

  /** The cleared controller; the poll counter is not part of the cleared record. */
  function Initial(clock: uint64): Controller {
    ControllerRecord(0, 0, 0, 0, false, false, NoInterrupt, 0, NoEvents(), 0, 0, 0, 0, 0, clock)
  }

  function SetIrq(c: Controller, active: int): Controller {
    c.(irqLinePrev := c.irqLine, irqLine := active)
  }

  predicate FallingEdge(c: Controller, active: int) {
    c.nmiLine == 1 && active == 0
  }

  function SetNmi(c: Controller, active: int): Controller {
    c.(nmiLinePrev := c.nmiLine, nmiLine := active, nmiPending := c.nmiPending || FallingEdge(c, active))
  }

  function Ticked(c: Controller): Controller {
    c.(clock := Low64(c.clock + 1))
  }

  /** What a poll answers when the I flag has the given value. */
  function Pending(c: Controller, masked: bool): InterruptType {
    if c.nmiPending then Nmi
    else if c.irqLine != 0 && !masked then Irq
    else NoInterrupt
  }

  function Count(c: Controller, kind: InterruptType): Controller {
    match kind
    case Irq => c.(totalIrqs := Low64(c.totalIrqs + 1))
    case Nmi => c.(totalNmis := Low64(c.totalNmis + 1))
    case Brk => c.(totalBrks := Low64(c.totalBrks + 1))
    case NoInterrupt => c
  }

  function Record(c: Controller, kind: InterruptType, pc: uint16, p: uint8): Controller {
    var stored := c.(history := c.history[c.historyIndex := Event(kind, pc, p, c.clock)],
                     historyIndex := (c.historyIndex + 1) % MAX_HISTORY,
                     historyCount := if c.historyCount < MAX_HISTORY then c.historyCount + 1 else c.historyCount);
    Count(stored, kind)
  }

  function ClearHistory(c: Controller): Controller {
    c.(historyCount := 0, historyIndex := 0, totalIrqs := 0, totalNmis := 0, totalBrks := 0)
  }

  /** The events a history dump lists, in the order it lists them. */
  function Dump(c: Controller): seq<Event> {
    var start := if c.historyCount < MAX_HISTORY then 0 else c.historyIndex;
    seq(c.historyCount, i requires 0 <= i < c.historyCount => c.history[(start + i) % MAX_HISTORY])
  }

  /** The controller record of the running emulator, updated in place. */
  class InterruptUnit {
    var irqLine: int
    var irqLinePrev: int
    var nmiLine: int
    var nmiLinePrev: int
    var nmiPending: bool
    var inProgress: bool
    var current: InterruptType
    var sequenceCycle: nat
    const history: array<Event>
    var historyCount: nat
    var historyIndex: nat
    var totalIrqs: uint64
    var totalNmis: uint64
    var totalBrks: uint64
    var clock: uint64

    predicate Valid()
      reads this
    {
      history.Length == MAX_HISTORY && historyCount <= MAX_HISTORY && historyIndex < MAX_HISTORY
    }

    ghost function Value(): Controller
      requires Valid()
      reads this, history
    {
      ControllerRecord(irqLine, irqLinePrev, nmiLine, nmiLinePrev, nmiPending, inProgress, current, sequenceCycle,
                       history[..], historyCount, historyIndex, totalIrqs, totalNmis, totalBrks, clock)
    }

    constructor ()
      ensures Valid() && Value() == Initial(0)
    {
      irqLine, irqLinePrev, nmiLine, nmiLinePrev := 0, 0, 0, 0;
      nmiPending, inProgress, current, sequenceCycle := false, false, NoInterrupt, 0;
      history := new Event[MAX_HISTORY](_ => NO_EVENT);
      historyCount, historyIndex, totalIrqs, totalNmis, totalBrks, clock := 0, 0, 0, 0, 0, 0;
      new;
      assert history[..] == NoEvents();
    }

    /** Clears everything but the poll counter. */
    method Init()
      requires Valid()
      modifies this, history
      ensures Valid() && Value() == Initial(old(clock))
    {
      irqLine, irqLinePrev, nmiLine, nmiLinePrev := 0, 0, 0, 0;
      nmiPending, inProgress, current, sequenceCycle := false, false, NoInterrupt, 0;
      historyCount, historyIndex, totalIrqs, totalNmis, totalBrks := 0, 0, 0, 0, 0;
      ClearEvents();
    }

    method ClearEvents()
      requires Valid()
      modifies history
      ensures history[..] == NoEvents()
    {
      var i := 0;
      while i < MAX_HISTORY
        invariant 0 <= i <= MAX_HISTORY
        invariant forall k :: 0 <= k < i ==> history[k] == NO_EVENT
      {
        history[i] := NO_EVENT;
        i := i + 1;
      }
      assert history[..] == NoEvents();
    }

    method DriveIrq(active: int)
      requires Valid()
      modifies this
      ensures Valid() && Value() == SetIrq(old(Value()), active)
    {
      irqLinePrev := irqLine;
      irqLine := active;
    }

    method DriveNmi(active: int)
      requires Valid()
      modifies this
      ensures Valid() && Value() == SetNmi(old(Value()), active)
    {
      nmiLinePrev := nmiLine;
      nmiLine := active;
      if nmiLinePrev == 1 && nmiLine == 0 {
        nmiPending := true;
      }
    }

    /** Counts the poll and answers what is due under the given I flag. */
    method Poll(masked: bool) returns (kind: InterruptType)
      requires Valid()
      modifies this
      ensures Valid() && Value() == Ticked(old(Value()))
      ensures kind == Pending(old(Value()), masked)
    {
      clock := Low64(clock + 1);
      if nmiPending { return Nmi; }
      if irqLine != 0 && !masked { return Irq; }
      return NoInterrupt;
    }

    method RecordInterrupt(kind: InterruptType, pc: uint16, p: uint8)
      requires Valid()
      modifies this, history
      ensures Valid() && Value() == Record(old(Value()), kind, pc, p)
    {
      history[historyIndex] := Event(kind, pc, p, clock);
      assert history[..] == old(Value()).history[old(historyIndex) := Event(kind, pc, p, clock)];
      historyIndex := (historyIndex + 1) % MAX_HISTORY;
      if historyCount < MAX_HISTORY {
        historyCount := historyCount + 1;
      }
      match kind {
        case Irq => totalIrqs := Low64(totalIrqs + 1);
        case Nmi => totalNmis := Low64(totalNmis + 1);
        case Brk => totalBrks := Low64(totalBrks + 1);
        case NoInterrupt =>
      }
    }

    method Clear()
      requires Valid()
      modifies this
      ensures Valid() && Value() == ClearHistory(old(Value()))
    {
      historyCount, historyIndex := 0, 0;
      totalIrqs, totalNmis, totalBrks := 0, 0, 0;
    }

    /** Lists the recorded events, oldest first. */
    method DumpHistory() returns (events: seq<Event>)
      requires Valid()
      ensures events == Dump(Value())
    {
      events := [];
      if historyCount == 0 { return; }
      var start := if historyCount < MAX_HISTORY then 0 else historyIndex;
      var i := 0;
      while i < historyCount
        invariant 0 <= i <= historyCount && |events| == i
        invariant forall k :: 0 <= k < i ==> events[k] == history[(start + k) % MAX_HISTORY]
      {
        events := events + [history[(start + i) % MAX_HISTORY]];
        i := i + 1;
      }
    }
  }
}
