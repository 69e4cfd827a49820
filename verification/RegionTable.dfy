/** The region table as a value, and the flat address space it stands for. */
module RegionTable {
  import opened Types
  import Bus

  const MAX_REGIONS: nat := 16

  /** RAM and ROM carry their bytes; I/O carries none. */
  datatype Region = Region(start: uint16, end: uint16, kind: Bus.Kind, data: seq<uint8>)

  type Table = seq<Region>

  predicate Covers(r: Region, addr: uint16) {
    r.start <= addr <= r.end
  }

  predicate WellSized(r: Region) {
    r.start <= r.end && |r.data| == if r.kind == Bus.Io then 0 else r.end - r.start + 1
  }

  /** The overlap test applied to each registered region. */
  predicate Meets(r: Region, start: uint16, end: uint16) {
    start <= r.end && r.start <= end
  }

  predicate Overlaps(t: Table, start: uint16, end: uint16) {
    exists i :: 0 <= i < |t| && Meets(t[i], start, end)
  }

  predicate Valid(t: Table) {
    && |t| <= MAX_REGIONS
    && (forall i :: 0 <= i < |t| ==> WellSized(t[i]))
    && (forall i, j :: 0 <= i < j < |t| ==> !Meets(t[i], t[j].start, t[j].end))
  }

  /** Index of the first region that covers the address, searching from `from`. */
  function FindFrom(t: Table, addr: uint16, from: nat): (r: Option<nat>)
    requires from <= |t|
    ensures r.Some? ==> from <= r.value < |t| && Covers(t[r.value], addr)
    ensures r.Some? ==> forall i :: from <= i < r.value ==> !Covers(t[i], addr)
    ensures r.None? ==> forall i :: from <= i < |t| ==> !Covers(t[i], addr)
    decreases |t| - from
  {
    if from == |t| then None
    else if Covers(t[from], addr) then Some(from)
    else FindFrom(t, addr, from + 1)
  }

  function Find(t: Table, addr: uint16): (r: Option<nat>)
    ensures r.Some? ==> r.value < |t| && Covers(t[r.value], addr)
    ensures r.None? ==> forall i :: 0 <= i < |t| ==> !Covers(t[i], addr)
  {
    FindFrom(t, addr, 0)
  }

  predicate Backed(t: Table, addr: uint16) {
    Find(t, addr).Some? && addr - t[Find(t, addr).value].start < |t[Find(t, addr).value].data|
  }

  function Read(t: Table, addr: uint16): uint8 {
    if Backed(t, addr) then
      var r := t[Find(t, addr).value];
      r.data[addr - r.start]
    else Bus.OPEN_BUS
  }

  /** Replace the byte behind a backed address. */
  function Put(t: Table, addr: uint16, value: uint8): Table {
    if Backed(t, addr) then
      var i := Find(t, addr).value;
      t[i := t[i].(data := t[i].data[addr - t[i].start := value])]
    else t
  }

  /** A bus write reaches RAM only. */
  function Write(t: Table, addr: uint16, value: uint8): Table {
    if Find(t, addr).Some? && t[Find(t, addr).value].kind == Bus.Ram then Put(t, addr, value) else t
  }

  function Zeros(n: nat): seq<uint8> {
    seq(n, _ => 0)
  }

  predicate Accepts(t: Table, start: uint16, size: uint16) {
    |t| < MAX_REGIONS && size != 0 && start + size <= 0x1_0000 && !Overlaps(t, start, start + size - 1)
  }

  function NewRegion(start: uint16, size: uint16, kind: Bus.Kind): Region
    requires 0 < size && start + size <= 0x1_0000
  {
    Region(start, start + size - 1, kind, if kind == Bus.Io then [] else Zeros(size))
  }

  function Add(t: Table, start: uint16, size: uint16, kind: Bus.Kind): Table {
    if Accepts(t, start, size) then t + [NewRegion(start, size, kind)] else t
  }

  /** The address space the table stands for. */
  function Flatten(t: Table): Bus.Space {
    Bus.Space(map a: uint16 | Find(t, a).Some? :: t[Find(t, a).value].kind,
              map a: uint16 | Backed(t, a) :: Read(t, a))
  }

  /** The first match is the only match. */
  lemma OnlyMatch(t: Table, addr: uint16, i: nat)
    requires Valid(t) && i < |t| && Covers(t[i], addr)
    ensures Find(t, addr) == Some(i)
  {
    hide FindFrom;
    SharedAddressMeets(t[Find(t, addr).value], t[i], addr);
  }

  lemma SharedAddressMeets(r: Region, q: Region, addr: uint16)
    requires Covers(r, addr) && Covers(q, addr)
    ensures Meets(r, q.start, q.end)
  {
  }

  lemma AddKeepsValid(t: Table, start: uint16, size: uint16, kind: Bus.Kind)
    requires Valid(t)
    ensures Valid(Add(t, start, size, kind))
  {
  }

  lemma PutKeepsValid(t: Table, addr: uint16, value: uint8)
    requires Valid(t)
    ensures Valid(Put(t, addr, value)) && |Put(t, addr, value)| == |t|
    ensures forall a: uint16 :: Find(Put(t, addr, value), a) == Find(t, a)
  {
    var u := Put(t, addr, value);
    forall a: uint16
      ensures Find(u, a) == Find(t, a)
    {
      SameBounds(t, u, a, 0);
    }
  }

  lemma {:induction false} SameBounds(t: Table, u: Table, a: uint16, from: nat)
    requires |t| == |u| && from <= |t|
    requires forall i :: 0 <= i < |t| ==> t[i].start == u[i].start && t[i].end == u[i].end
    ensures FindFrom(u, a, from) == FindFrom(t, a, from)
    decreases |t| - from
  {
    if from < |t| {
      SameBounds(t, u, a, from + 1);
    }
  }

  lemma PutReads(t: Table, addr: uint16, value: uint8, a: uint16)
    requires Valid(t) && Backed(t, addr)
    ensures var u := Put(t, addr, value);
            Backed(u, a) == Backed(t, a) && Read(u, a) == if a == addr then value else Read(t, a)
  {
    hide FindFrom, Valid;
    PutKeepsValid(t, addr, value);
  }

  /** Putting a byte changes exactly that cell of the flat space. */
  lemma PutFlattens(t: Table, addr: uint16, value: uint8)
    requires Valid(t)
    ensures Backed(t, addr) <==> addr in Flatten(t).cells
    ensures Backed(t, addr) ==>
              Flatten(Put(t, addr, value)) == Flatten(t).(cells := Flatten(t).cells[addr := value])
  {
    hide Find, Valid, Read, Backed, Put;
    if Backed(t, addr) {
      var u := Put(t, addr, value);
      PutKeepsKinds(t, addr, value);
      forall a: uint16
        ensures Backed(u, a) == Backed(t, a) && Read(u, a) == if a == addr then value else Read(t, a)
      {
        PutReads(t, addr, value, a);
      }
    }
  }

  lemma PutKeepsKinds(t: Table, addr: uint16, value: uint8)
    requires Valid(t)
    ensures Flatten(Put(t, addr, value)).kinds == Flatten(t).kinds
  {
    hide FindFrom, Valid;
    PutKeepsValid(t, addr, value);
  }

  /** Bus reads and writes on the table are reads and writes of the flat space. */
  lemma BusRefines(t: Table, addr: uint16, value: uint8)
    requires Valid(t)
    ensures Read(t, addr) == Bus.Read(Flatten(t), addr)
    ensures Flatten(Write(t, addr, value)) == Bus.Write(Flatten(t), addr, value)
    ensures Valid(Write(t, addr, value))
  {
    hide Find, Put;
    PutFlattens(t, addr, value);
    PutKeepsValid(t, addr, value);
  }

  datatype AddCall = AddCall(start: uint16, size: uint16, kind: Bus.Kind)

  function Apply(t: Table, call: AddCall): Table {
    Add(t, call.start, call.size, call.kind)
  }

  function RunAdds(calls: seq<AddCall>): Table {
    if calls == [] then [] else Apply(RunAdds(calls[..|calls| - 1]), calls[|calls| - 1])
  }

  predicate InCall(call: AddCall, addr: uint16) {
    call.start <= addr < call.start + call.size
  }

  /** The flat space with a fresh range: zeroed cells for RAM and ROM, none for I/O. */
  function Extend(s: Bus.Space, call: AddCall): Bus.Space {
    Bus.Space(s.kinds + map a: uint16 | InCall(call, a) :: call.kind,
              s.cells + map a: uint16 | InCall(call, a) && call.kind != Bus.Io :: 0)
  }

  /** Acceptance in terms of the flat space: a free slot and a nonempty range of unmapped addresses. */
  predicate FlatAccepts(s: Bus.Space, count: nat, call: AddCall) {
    && count < MAX_REGIONS && call.size != 0 && call.start + call.size <= 0x1_0000
    && forall a: uint16 :: InCall(call, a) ==> a !in s.kinds
  }

  lemma MeetIffShared(t: Table, call: AddCall)
    requires Valid(t) && 0 < call.size && call.start + call.size <= 0x1_0000
    ensures Overlaps(t, call.start, call.start + call.size - 1) <==>
            exists a: uint16 :: InCall(call, a) && Find(t, a).Some?
  {
    hide FindFrom;
    var start, end := call.start, call.start + call.size - 1;
    if i :| 0 <= i < |t| && Meets(t[i], start, end) {
      var shared: uint16 := if t[i].start <= start then start else t[i].start;
      assert Covers(t[i], shared) && InCall(call, shared);
      assert Find(t, shared).Some?;
    }
    if a: uint16 :| InCall(call, a) && Find(t, a).Some? {
      assert Meets(t[Find(t, a).value], start, end);
    }
  }

  lemma NewestFound(t: Table, r: Region, a: uint16)
    requires Valid(t + [r])
    ensures Covers(r, a) ==> Find(t + [r], a) == Some(|t|)
    ensures !Covers(r, a) ==> Find(t + [r], a) == Find(t, a)
  {
    hide FindFrom;
    if Covers(r, a) {
      OnlyMatch(t + [r], a, |t|);
    } else if Find(t, a).Some? {
      OnlyMatch(t + [r], a, Find(t, a).value);
    }
  }

  lemma AcceptsFlat(t: Table, call: AddCall)
    requires Valid(t)
    ensures Accepts(t, call.start, call.size) <==> FlatAccepts(Flatten(t), |t|, call)
  {
    hide Find, Overlaps, Valid, Read, Backed;
    if 0 < call.size && call.start + call.size <= 0x1_0000 {
      MeetIffShared(t, call);
    }
  }

  lemma AddedCell(t: Table, call: AddCall, a: uint16)
    requires Valid(t) && Accepts(t, call.start, call.size)
    ensures var u := Apply(t, call);
            && (InCall(call, a) ==> Find(t, a).None? && Find(u, a) == Some(|t|) && u[|t|].kind == call.kind)
            && (!InCall(call, a) ==> Find(u, a) == Find(t, a) && (Find(t, a).Some? ==> u[Find(u, a).value] == t[Find(t, a).value]))
  {
    hide FindFrom, Overlaps, Valid;
    AcceptsFlat(t, call);
    AddKeepsValid(t, call.start, call.size, call.kind);
    NewestFound(t, NewRegion(call.start, call.size, call.kind), a);
  }

  lemma AddedByte(t: Table, call: AddCall, a: uint16)
    requires Valid(t) && Accepts(t, call.start, call.size)
    ensures var u := Apply(t, call);
            && (InCall(call, a) ==> !Backed(t, a) && Backed(u, a) == (call.kind != Bus.Io))
            && (!InCall(call, a) ==> Backed(u, a) == Backed(t, a) && Read(u, a) == Read(t, a))
            && (InCall(call, a) && Backed(u, a) ==> Read(u, a) == 0)
  {
    hide Find, Overlaps, Valid;
    AddedCell(t, call, a);
  }

  lemma KindsExtend(t: Table, call: AddCall)
    requires Valid(t) && Accepts(t, call.start, call.size)
    ensures Flatten(Apply(t, call)).kinds == Extend(Flatten(t), call).kinds
  {
    hide Find, Valid, Read, Backed, Apply, Accepts, InCall;
    forall a: uint16
      ensures var u := Apply(t, call);
              && (InCall(call, a) ==> Find(t, a).None? && Find(u, a) == Some(|t|) && u[|t|].kind == call.kind)
              && (!InCall(call, a) ==> Find(u, a) == Find(t, a) && (Find(t, a).Some? ==> u[Find(u, a).value] == t[Find(t, a).value]))
    {
      AddedCell(t, call, a);
    }
  }

  lemma CellsExtend(t: Table, call: AddCall)
    requires Valid(t) && Accepts(t, call.start, call.size)
    ensures Flatten(Apply(t, call)).cells == Extend(Flatten(t), call).cells
  {
    hide Find, Valid, Read, Backed, Apply, Accepts, InCall;
    forall a: uint16
      ensures var u := Apply(t, call);
              && (InCall(call, a) ==> !Backed(t, a) && Backed(u, a) == (call.kind != Bus.Io))
              && (!InCall(call, a) ==> Backed(u, a) == Backed(t, a) && Read(u, a) == Read(t, a))
              && (InCall(call, a) && Backed(u, a) ==> Read(u, a) == 0)
    {
      AddedByte(t, call, a);
    }
  }

  /** An add call extends the flat space by its range, or is refused exactly when the range is not free. */
  lemma AddFlattens(t: Table, call: AddCall)
    requires Valid(t)
    ensures Valid(Apply(t, call))
    ensures Accepts(t, call.start, call.size) <==> FlatAccepts(Flatten(t), |t|, call)
    ensures Flatten(Apply(t, call)) ==
            if FlatAccepts(Flatten(t), |t|, call) then Extend(Flatten(t), call) else Flatten(t)
  {
    hide Find, Accepts, Valid, Read, Backed, FlatAccepts, Flatten, Extend;
    AddKeepsValid(t, call.start, call.size, call.kind);
    AcceptsFlat(t, call);
    if Accepts(t, call.start, call.size) {
      KindsExtend(t, call);
      CellsExtend(t, call);
    }
  }

  /** After any sequence of add calls the table is valid: at most 16 disjoint regions, each backed by its own size. */
  lemma {:induction false} AddsKeepValid(calls: seq<AddCall>)
    ensures Valid(RunAdds(calls))
  {
    if calls != [] {
      AddsKeepValid(calls[..|calls| - 1]);
      AddFlattens(RunAdds(calls[..|calls| - 1]), calls[|calls| - 1]);
    }
  }

  /** The flat space and region count that the add calls leave, without any table. */
  datatype FlatTable = FlatTable(space: Bus.Space, count: nat)

  function FlatAdds(calls: seq<AddCall>): FlatTable {
    if calls == [] then FlatTable(Bus.Space(map[], map[]), 0)
    else
      var f, call := FlatAdds(calls[..|calls| - 1]), calls[|calls| - 1];
      if FlatAccepts(f.space, f.count, call) then FlatTable(Extend(f.space, call), f.count + 1) else f
  }

  /** The table built by any sequence of add calls stands for the flat space those calls describe. */
  lemma {:induction false} AddsFlatten(calls: seq<AddCall>)
    ensures Valid(RunAdds(calls))
    ensures FlatAdds(calls) == FlatTable(Flatten(RunAdds(calls)), |RunAdds(calls)|)
  {
    hide Valid, Flatten, FlatAccepts, Extend;
    AddsKeepValid(calls);
    if calls == [] {
      EmptyFlattens();
    } else {
      var rest, call := calls[..|calls| - 1], calls[|calls| - 1];
      AddsFlatten(rest);
      AddFlattens(RunAdds(rest), call);
    }
  }

  lemma EmptyFlattens()
    ensures Flatten([]) == Bus.Space(map[], map[])
  {
    assert forall a: uint16 :: Find([], a).None?;
  }

  function Size(r: Region): int {
    r.end - r.start + 1
  }

  function TotalSize(t: Table): int {
    if t == [] then 0 else TotalSize(t[..|t| - 1]) + Size(t[|t| - 1])
  }

  function Interval(low: int, high: int): (r: set<int>)
    requires low <= high + 1
    ensures forall a :: a in r <==> low <= a <= high
    ensures |r| == high - low + 1
    decreases high - low
  {
    if high < low then {} else Interval(low, high - 1) + {high}
  }

  function Addresses(t: Table): set<int>
    requires Valid(t)
  {
    if t == [] then {} else Addresses(t[..|t| - 1]) + Interval(t[|t| - 1].start, t[|t| - 1].end)
  }

  lemma {:induction false} AddressesCovered(t: Table, a: int)
    requires Valid(t) && a in Addresses(t)
    ensures exists i :: 0 <= i < |t| && t[i].start <= a <= t[i].end
  {
    var last := |t| - 1;
    if a in Addresses(t[..last]) {
      AddressesCovered(t[..last], a);
      var i :| 0 <= i < last && t[..last][i].start <= a <= t[..last][i].end;
      assert t[i].start <= a <= t[i].end;
    } else {
      assert t[last].start <= a <= t[last].end;
    }
  }

  lemma {:induction false} AddressCount(t: Table)
    requires Valid(t)
    ensures |Addresses(t)| == TotalSize(t)
  {
    if t != [] {
      var rest, last := t[..|t| - 1], t[|t| - 1];
      AddressCount(rest);
      assert Addresses(rest) !! Interval(last.start, last.end) by {
        forall a | a in Addresses(rest)
          ensures a !in Interval(last.start, last.end)
        {
          AddressesCovered(rest, a);
          var i :| 0 <= i < |rest| && rest[i].start <= a <= rest[i].end;
          assert !Meets(t[i], last.start, last.end);
        }
      }
    }
  }

  lemma SubsetCount(small: set<int>, large: set<int>)
    requires small <= large
    ensures |small| <= |large|
  {
    assert large == small + (large - small);
  }

  /** The regions of a valid table fit together in the 64 KiB address space. */
  lemma TotalSizeBound(t: Table)
    requires Valid(t)
    ensures TotalSize(t) <= 0x1_0000
  {
    AddressCount(t);
    forall a | a in Addresses(t)
      ensures a in Interval(0, 0xFFFF)
    {
      AddressesCovered(t, a);
    }
    SubsetCount(Addresses(t), Interval(0, 0xFFFF));
  }

  /** Two tables that register the same regions in any order are the same memory. */
  lemma OrderIrrelevant(t: Table, u: Table)
    requires Valid(t) && Valid(u)
    requires forall r :: r in t <==> r in u
    ensures Flatten(t) == Flatten(u)
  {
    hide Find, Valid;
    forall a: uint16
      ensures Find(t, a).Some? == Find(u, a).Some?
      ensures Find(t, a).Some? ==> t[Find(t, a).value] == u[Find(u, a).value]
    {
      if Find(t, a).Some? {
        SameMatch(t, u, a);
      } else if Find(u, a).Some? {
        SameMatch(u, t, a);
      }
    }
  }

  lemma SameMatch(t: Table, u: Table, a: uint16)
    requires Valid(t) && Valid(u) && Find(t, a).Some?
    requires forall r :: r in t ==> r in u
    ensures Find(u, a).Some? && u[Find(u, a).value] == t[Find(t, a).value]
  {
    hide FindFrom;
    var r := t[Find(t, a).value];
    assert r in u;
    var j :| 0 <= j < |u| && u[j] == r;
    OnlyMatch(u, a, j);
  }
}
