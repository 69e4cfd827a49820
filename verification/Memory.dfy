/** The region-based memory behind the bus: a table of regions whose buffers are changed in place. */
module Memory {
  import opened Types
  import opened RegionTable
  import Loading
  import Bus

  /** An I/O region has no buffer. */
  datatype MemRegion = MemRegion(start: uint16, end: uint16, kind: Bus.Kind, data: array?<uint8>)

  class RegionMemory {
    var regions: seq<MemRegion>
    ghost var buffers: set<array<uint8>>
    /** The flat address space the regions stand for. */
    ghost var space: Bus.Space

    ghost predicate Owned()
      reads `regions, `buffers
    {
      forall i :: 0 <= i < |regions| && regions[i].data != null ==> regions[i].data in buffers
    }

    ghost function RegionAt(i: nat): Region
      requires i < |regions| && Owned()
      reads `regions, `buffers, buffers
    {
      var r := regions[i];
      Region(r.start, r.end, r.kind, if r.data == null then [] else r.data[..])
    }

    ghost function TableUpTo(n: nat): (t: Table)
      requires n <= |regions| && Owned()
      reads `regions, `buffers, buffers
      ensures |t| == n && forall i :: 0 <= i < n ==> t[i] == RegionAt(i)
    {
      if n == 0 then [] else TableUpTo(n - 1) + [RegionAt(n - 1)]
    }

    /** The regions as values, buffers read out. */
    ghost function Table(): (t: Table)
      requires Owned()
      reads `regions, `buffers, buffers
      ensures |t| == |regions| && forall i :: 0 <= i < |t| ==> t[i] == RegionAt(i)
    {
      TableUpTo(|regions|)
    }

    /** Buffers are not shared, the table is valid, and `space` is what it stands for. */
    ghost predicate Valid()
      reads this, buffers
    {
      && Owned()
      && (forall i :: 0 <= i < |regions| ==> (regions[i].data == null <==> regions[i].kind == Bus.Io))
      && (forall i, j :: 0 <= i < j < |regions| && regions[i].data != null ==> regions[i].data != regions[j].data)
      && RegionTable.Valid(Table())
      && space == Flatten(Table())
    }

    constructor ()
      ensures Valid() && regions == [] && fresh(buffers)
      ensures space == Bus.Space(map[], map[])
    {
      regions, buffers := [], {};
      space := Bus.Space(map[], map[]);
      new;
      EmptyFlattens();
      assert Table() == [];
    }

    method Clear()
      modifies this
      ensures Valid() && regions == [] && space == Bus.Space(map[], map[])
    {
      regions, buffers := [], {};
      space := Bus.Space(map[], map[]);
      EmptyFlattens();
      assert Table() == [];
    }

    method RegionOverlaps(start: uint16, end: uint16) returns (overlaps: bool)
      requires Valid()
      ensures overlaps == RegionTable.Overlaps(Table(), start, end)
    {
      hide Flatten, RegionTable.Valid;
      var i := 0;
      while i < |regions|
        invariant 0 <= i <= |regions|
        invariant forall k :: 0 <= k < i ==> !Meets(Table()[k], start, end)
      {
        if start <= regions[i].end && regions[i].start <= end {
          assert Meets(Table()[i], start, end);
          return true;
        }
        i := i + 1;
      }
      return false;
    }

    /** Adds a region of the given kind, zeroed when it has a buffer; -1 when it is refused. */
    method AddRegion(start: uint16, size: uint16, kind: Bus.Kind) returns (code: int)
      requires Valid()
      modifies this
      ensures Valid() && fresh(buffers - old(buffers))
      ensures Table() == Add(old(Table()), start, size, kind)
      ensures code == if Accepts(old(Table()), start, size) then 0 else -1
    {
      hide Flatten, FindFrom, RegionTable.Overlaps;
      if |regions| >= MAX_REGIONS { return -1; }
      if size == 0 || start + size > 0x1_0000 { return -1; }
      var end: uint16 := start + size - 1;
      var overlaps := RegionOverlaps(start, end);
      if overlaps { return -1; }
      var data: array?<uint8> := null;
      if kind != Bus.Io {
        data := new uint8[size](_ => 0);
      }
      Append(MemRegion(start, end, kind, data), size);
      return 0;
    }

    /** Puts an accepted region at the end of the table. */
    method Append(region: MemRegion, size: uint16)
      requires Valid() && Accepts(Table(), region.start, size) && region.end == region.start + size - 1
      requires region.data == null <==> region.kind == Bus.Io
      requires region.data != null ==> region.data !in buffers && region.data[..] == Zeros(size)
      modifies this
      ensures Valid() && Table() == old(Table()) + [NewRegion(region.start, size, region.kind)]
      ensures buffers == old(buffers) + if region.data == null then {} else {region.data}
    {
      hide Flatten, FindFrom, RegionTable.Valid, RegionTable.Overlaps, TableUpTo;
      ghost var before := Table();
      if region.data != null {
        buffers := buffers + {region.data};
      }
      regions := regions + [region];
      assert RegionAt(|before|) == NewRegion(region.start, size, region.kind);
      assert forall i :: 0 <= i < |before| ==> RegionAt(i) == before[i];
      assert Table() == before + [NewRegion(region.start, size, region.kind)];
      AddFlattens(before, AddCall(region.start, size, region.kind));
      space := Flatten(Table());
    }

    /** Index of the region that covers the address, -1 if there is none. */
    method FindRegion(addr: uint16) returns (index: int)
      requires Valid()
      ensures index == if Find(Table(), addr).Some? then Find(Table(), addr).value else -1
      ensures -1 <= index < |regions|
    {
      hide Flatten, RegionTable.Valid;
      var i := 0;
      while i < |regions|
        invariant 0 <= i <= |regions|
        invariant forall k :: 0 <= k < i ==> !Covers(Table()[k], addr)
      {
        if addr >= regions[i].start && addr <= regions[i].end {
          assert Covers(Table()[i], addr);
          return i;
        }
        i := i + 1;
      }
      return -1;
    }

    method Read(addr: uint16) returns (value: uint8)
      requires Valid()
      ensures value == Bus.Read(space, addr)
    {
      hide Flatten, FindFrom, TableUpTo;
      var i := FindRegion(addr);
      BusRefines(Table(), addr, 0);
      if i < 0 { return Bus.OPEN_BUS; }
      assert Table()[i] == RegionAt(i) && WellSized(Table()[i]);
      if regions[i].data != null {
        return regions[i].data[addr - regions[i].start];
      }
      return Bus.OPEN_BUS;
    }

    /** The byte behind a backed address, whatever the kind of its region. */
    method PutAt(i: nat, addr: uint16, value: uint8)
      requires Valid() && i < |regions| && regions[i].data != null
      requires Find(Table(), addr) == Some(i)
      modifies this`space, buffers
      ensures Valid()
      ensures Backed(old(Table()), addr) && Table() == Put(old(Table()), addr, value)
      ensures space == Loading.Poke(old(space), addr, value)
    {
      hide Flatten, FindFrom, TableUpTo;
      ghost var before := Table();
      assert before[i] == RegionAt(i) && WellSized(before[i]);
      var offset := addr - regions[i].start;
      regions[i].data[offset] := value;
      assert RegionAt(i).data == before[i].data[offset := value];
      assert forall k :: 0 <= k < |regions| && k != i ==> RegionAt(k) == before[k];
      assert Table() == Put(before, addr, value);
      PutFlattens(before, addr, value);
      PutKeepsValid(before, addr, value);
      space := Flatten(Table());
    }

    method Write(addr: uint16, value: uint8)
      requires Valid()
      modifies this`space, buffers
      ensures Valid()
      ensures space == Bus.Write(old(space), addr, value)
    {
      hide Flatten, FindFrom, Put, TableUpTo;
      var i := FindRegion(addr);
      BusRefines(Table(), addr, value);
      if i < 0 { return; }
      assert Table()[i] == RegionAt(i);
      if regions[i].kind == Bus.Rom { return; }
      if regions[i].kind == Bus.Ram && regions[i].data != null {
        PutAt(i, addr, value);
      }
    }

    /** Loads byte after byte; -1 at the first address without a buffer, the bytes before it staying. */
    method Load(addr: uint16, data: seq<uint8>) returns (code: int)
      requires Valid() && |data| <= 0xFFFF
      modifies this`space, buffers
      ensures Valid()
      ensures Loading.Loaded(space, code == 0) == Loading.Load(old(space), addr, data)
      ensures code == 0 || code == -1
    {
      hide Flatten, FindFrom, Put, TableUpTo;
      var i := 0;
      while i < |data|
        invariant 0 <= i <= |data| && Valid()
        invariant Loading.Load(old(space), addr, data) == Loading.Load(space, addr + i, data[i..])
      {
        var k := FindRegion(Low16(addr + i));
        PutFlattens(Table(), Low16(addr + i), data[i]);
        if k < 0 { return -1; }
        assert Table()[k] == RegionAt(k) && WellSized(Table()[k]);
        if regions[k].data == null { return -1; }
        PutAt(k, Low16(addr + i), data[i]);
        assert data[i..][1..] == data[i + 1..];
        i := i + 1;
      }
      return 0;
    }

    /** Sets both bytes of a vector if one region holds them; -1 otherwise. */
    method SetVector(vector: uint16, destination: uint16) returns (code: int)
      requires Valid()
      modifies this`space, buffers
      ensures Valid()
      ensures code == 0 || code == -1
      ensures code == 0 <==> vector < 0xFFFF && Backed(old(Table()), vector) &&
                             Find(old(Table()), vector + 1) == Find(old(Table()), vector)
      ensures code == -1 ==> space == old(space)
      ensures code == 0 ==> Bus.Read16(space, vector) == destination
      ensures code == 0 ==> space == Loading.Load(old(space), vector, [LowByte(destination), HighByte(destination)]).space
    {
      hide Flatten, FindFrom, Put, Loading.Load, Loading.Poke, LowByte, HighByte, Bus.Read16, RegionTable.Valid, RegionTable.Read, TableUpTo;
      var k := FindRegion(vector);
      if k < 0 { return -1; }
      TableWellSized(k);
      if regions[k].data == null { return -1; }
      var high := FindRegion(Low16(vector + 1));
      if high != k { return -1; }
      var offset := vector - regions[k].start;
      if offset + 2 > regions[k].end - regions[k].start + 1 { return -1; }
      PutFlattens(Table(), vector, LowByte(destination));
      PutFlattens(Table(), vector + 1, HighByte(destination));
      Loading.LoadPair(space, vector, destination);
      PutKeepsValid(Table(), vector, LowByte(destination));
      PutAt(k, vector, LowByte(destination));
      PutAt(k, vector + 1, HighByte(destination));
      return 0;
    }

    lemma TableWellSized(k: nat)
      requires Valid() && k < |regions|
      ensures WellSized(RegionAt(k))
    {
      hide Flatten;
      assert Table()[k] == RegionAt(k);
    }
  }
}
