/** Loading bytes past the write protection: what a load leaves, whole or cut short, and in how many chunks. */
module Loading {
  import opened Types
  import Bus

  /** Stores into any backed cell, ROM included. */
  function Poke(s: Bus.Space, addr: uint16, value: uint8): Bus.Space {
    if addr in s.cells then s.(cells := s.cells[addr := value]) else s
  }

  datatype Loaded = Loaded(space: Bus.Space, ok: bool)

  /** Byte after byte from `addr`, stopping at the first address without a backing byte. */
  function Load(s: Bus.Space, addr: int, data: seq<uint8>): Loaded
    decreases data
  {
    if data == [] then Loaded(s, true)
    else if Low16(addr) !in s.cells then Loaded(s, false)
    else Load(Poke(s, Low16(addr), data[0]), addr + 1, data[1..])
  }

  lemma LoadPair(s: Bus.Space, addr: uint16, word: uint16)
    requires addr < 0xFFFF && addr in s.cells && addr + 1 in s.cells
    ensures var t := Poke(Poke(s, addr, LowByte(word)), addr + 1, HighByte(word));
            && Load(s, addr, [LowByte(word), HighByte(word)]) == Loaded(t, true)
            && Bus.Read16(t, addr) == word
  {
    hide LowByte, HighByte;
    var data := [LowByte(word), HighByte(word)];
    var s1 := Poke(s, addr, data[0]);
    assert data[1..] == [HighByte(word)] && data[1..][1..] == [];
    assert Load(s1, addr + 1, data[1..]) == Load(Poke(s1, addr + 1, HighByte(word)), addr + 2, []);
    WordOfBytes(word);
  }

  /** One load per chunk, each where the last one ended. */
  function LoadChunks(s: Bus.Space, addr: int, chunks: seq<seq<uint8>>): Loaded
    decreases chunks
  {
    if chunks == [] then Loaded(s, true)
    else
      var first := Load(s, addr, chunks[0]);
      if first.ok then LoadChunks(first.space, addr + |chunks[0]|, chunks[1..]) else first
  }

  function Concat(chunks: seq<seq<uint8>>): seq<uint8>
    decreases chunks
  {
    if chunks == [] then [] else chunks[0] + Concat(chunks[1..])
  }

  lemma {:induction false} LoadAppend(s: Bus.Space, addr: int, first: seq<uint8>, second: seq<uint8>)
    ensures Load(s, addr, first + second) ==
            var r := Load(s, addr, first); if r.ok then Load(r.space, addr + |first|, second) else r
    decreases first
  {
    if first == [] {
      assert first + second == second;
    } else {
      assert (first + second)[1..] == first[1..] + second;
      if Low16(addr) in s.cells {
        LoadAppend(Poke(s, Low16(addr), first[0]), addr + 1, first[1..], second);
      }
    }
  }

  /** However a file is cut into chunks, loading the chunks is loading the file. */
  lemma {:induction false} ChunksAreOneLoad(s: Bus.Space, addr: int, chunks: seq<seq<uint8>>)
    ensures LoadChunks(s, addr, chunks) == Load(s, addr, Concat(chunks))
    decreases chunks
  {
    if chunks != [] {
      LoadAppend(s, addr, chunks[0], Concat(chunks[1..]));
      var first := Load(s, addr, chunks[0]);
      if first.ok {
        ChunksAreOneLoad(first.space, addr + |chunks[0]|, chunks[1..]);
      }
    }
  }

  /** Only the low 16 bits of an address count. */
  lemma {:induction false} LoadModulo(s: Bus.Space, a: int, b: int, data: seq<uint8>)
    requires Low16(a) == Low16(b)
    ensures Load(s, a, data) == Load(s, b, data)
    decreases data
  {
    if data != [] && Low16(a) in s.cells {
      LoadModulo(Poke(s, Low16(a), data[0]), a + 1, b + 1, data[1..]);
    }
  }

  lemma {:induction false} LoadChunksModulo(s: Bus.Space, a: int, b: int, chunks: seq<seq<uint8>>)
    requires Low16(a) == Low16(b)
    ensures LoadChunks(s, a, chunks) == LoadChunks(s, b, chunks)
    decreases chunks
  {
    if chunks != [] {
      LoadModulo(s, a, b, chunks[0]);
      var first := Load(s, a, chunks[0]);
      LoadChunksModulo(first.space, a + |chunks[0]|, b + |chunks[0]|, chunks[1..]);
    }
  }

  /** Where byte `i` of a load goes. */
  function Place(addr: int, i: int): uint16 {
    Low16(addr + i)
  }

  /** Number of bytes up to the first address without a backing byte. */
  function Reach(s: Bus.Space, addr: int, count: nat): nat
    decreases count
  {
    if count == 0 || Low16(addr) !in s.cells then 0 else 1 + Reach(s, addr + 1, count - 1)
  }

  lemma {:induction false} ReachIsFirstGap(s: Bus.Space, addr: int, count: nat)
    ensures var n := Reach(s, addr, count);
            && n <= count
            && (forall i :: 0 <= i < n ==> Place(addr, i) in s.cells)
            && (n < count ==> Place(addr, n) !in s.cells)
    decreases count
  {
    if count > 0 && Low16(addr) in s.cells {
      ReachIsFirstGap(s, addr + 1, count - 1);
      var n := Reach(s, addr, count);
      forall i | 0 <= i < n
        ensures Place(addr, i) in s.cells
      {
        assert i > 0 ==> Place(addr + 1, i - 1) in s.cells;
      }
    }
  }

  lemma ReachUnique(s: Bus.Space, addr: int, count: nat, n: nat)
    requires n <= count
    requires forall i :: 0 <= i < n ==> Place(addr, i) in s.cells
    requires n < count ==> Place(addr, n) !in s.cells
    ensures Reach(s, addr, count) == n
  {
    hide Reach, Low16;
    ReachIsFirstGap(s, addr, count);
    var r := Reach(s, addr, count);
    assert r < n ==> Place(addr, r) in s.cells;
  }

  /** The last of the first `count` bytes from `addr` that goes to `a`: addresses wrap, and later bytes win. */
  function Latest(addr: int, count: nat, a: uint16): Option<nat>
    decreases count
  {
    if count == 0 then None
    else if Place(addr, count - 1) == a then Some(count - 1)
    else Latest(addr, count - 1, a)
  }

  lemma {:induction false} LatestBound(addr: int, count: nat, a: uint16)
    ensures var latest := Latest(addr, count, a);
            && (latest.Some? ==> latest.value < count && Place(addr, latest.value) == a)
            && forall i :: (if latest.Some? then latest.value else -1) < i < count ==> Place(addr, i) != a
    decreases count
  {
    hide Low16, Place;
    if count > 0 {
      LatestBound(addr, count - 1, a);
    }
  }

  /** Below the top of memory every address gets at most one byte. */
  lemma {:induction false} LatestWithoutWrap(addr: nat, count: nat, a: uint16)
    requires addr + count <= 0x1_0000
    ensures Latest(addr, count, a) == if addr <= a < addr + count then Some(a - addr) else None
    decreases count
  {
    if count > 0 {
      LatestWithoutWrap(addr, count - 1, a);
    }
  }

  /** The byte at `a` after storing `data` from `addr` on. */
  function Overlay(s: Bus.Space, addr: int, data: seq<uint8>, a: uint16): uint8
    requires a in s.cells
  {
    LatestBound(addr, |data|, a);
    match Latest(addr, |data|, a)
    case Some(i) => data[i]
    case None => s.cells[a]
  }

  /** `t` is `s` with the bytes of `data` from `addr` on and everything else as it was. */
  ghost predicate Overlaid(s: Bus.Space, t: Bus.Space, addr: int, data: seq<uint8>) {
    && t.kinds == s.kinds && t.cells.Keys == s.cells.Keys
    && forall a: uint16 :: a in s.cells ==> t.cells[a] == Overlay(s, addr, data, a)
  }

  lemma NothingOverlaid(s: Bus.Space, addr: int)
    ensures Overlaid(s, s, addr, [])
  {
  }

  /** One more byte. */
  lemma PokeOverlays(s: Bus.Space, t: Bus.Space, addr: int, data: seq<uint8>, value: uint8)
    requires Overlaid(s, t, addr, data) && Place(addr, |data|) in s.cells
    ensures Overlaid(s, Poke(t, Place(addr, |data|), value), addr, data + [value])
  {
    hide Low16, Place;
    forall a: uint16 | a in s.cells
      ensures Poke(t, Place(addr, |data|), value).cells[a] == Overlay(s, addr, data + [value], a)
    {
      LatestBound(addr, |data|, a);
    }
  }

  lemma LoadOne(s: Bus.Space, addr: int, value: uint8)
    ensures Load(s, addr, [value]) ==
            if Low16(addr) in s.cells then Loaded(Poke(s, Low16(addr), value), true) else Loaded(s, false)
  {
    hide Low16, Poke;
    assert [value][1..] == [];
    assert Low16(addr) in s.cells ==> Load(Poke(s, Low16(addr), value), addr + 1, []).ok;
  }

  /** A load succeeds iff every address is backed; it leaves exactly the bytes up to the first gap. */
  lemma {:induction false} LoadOverlays(s: Bus.Space, addr: int, data: seq<uint8>)
    ensures var r, n := Load(s, addr, data), Reach(s, addr, |data|);
            && n <= |data| && (r.ok <==> n == |data|)
            && Overlaid(s, r.space, addr, data[..n])
    decreases |data|
  {
    hide Load, Reach, Overlaid, Poke, Low16;
    if data == [] {
      NothingOverlaid(s, addr);
      ReachUnique(s, addr, 0, 0);
      EmptyLoad(s, addr);
      assert data[..0] == [];
    } else {
      var last := |data| - 1;
      var init := data[..last];
      var r := Load(s, addr, init);
      LoadOverlays(s, addr, init);
      LoadAppend(s, addr, init, [data[last]]);
      assert data == init + [data[last]];
      ReachIsFirstGap(s, addr, last);
      if r.ok {
        assert init[..last] == init;
        SameBacking(s, r.space, addr, init);
        LoadOne(r.space, addr + last, data[last]);
        if Place(addr, last) in s.cells {
          PokeOverlays(s, r.space, addr, init, data[last]);
          ReachUnique(s, addr, |data|, |data|);
          assert data[..|data|] == data;
        } else {
          ReachUnique(s, addr, |data|, last);
        }
      } else {
        var n := Reach(s, addr, last);
        ReachUnique(s, addr, |data|, n);
        assert init[..n] == data[..n];
      }
    }
  }

  lemma EmptyLoad(s: Bus.Space, addr: int)
    ensures Load(s, addr, []) == Loaded(s, true)
  {
  }

  lemma SameBacking(s: Bus.Space, t: Bus.Space, addr: int, data: seq<uint8>)
    requires Overlaid(s, t, addr, data)
    ensures s.cells.Keys == t.cells.Keys
  {
  }

  /** The length test of the file loader, in 32-bit arithmetic. */
  predicate PassesGuard(addr: uint16, size: nat) {
    Low32(addr + Low32(size)) <= 0x1_0000
  }

  lemma GuardWraps(addr: uint16, size: nat)
    ensures PassesGuard(addr, size) <==> Low32(addr + size) <= 0x1_0000
    ensures addr + size <= 0x1_0000 ==> PassesGuard(addr, size)
  {
  }

  /** The file loader: refuses files that fail the length test, else loads chunk by chunk. */
  function LoadFile(s: Bus.Space, addr: uint16, chunks: seq<seq<uint8>>): Loaded {
    if PassesGuard(addr, |Concat(chunks)|) then LoadChunks(s, addr, chunks) else Loaded(s, false)
  }

  /** For every way of cutting the file: past the length test the load succeeds iff every address it reaches is
      backed, and leaves the bytes up to the first gap; a file that fails the test leaves nothing. */
  lemma FileLoadOutcome(s: Bus.Space, addr: uint16, chunks: seq<seq<uint8>>)
    ensures var file, r := Concat(chunks), LoadFile(s, addr, chunks);
            var n := if PassesGuard(addr, |file|) then Reach(s, addr, |file|) else 0;
            && n <= |file| && Overlaid(s, r.space, addr, file[..n])
            && (r.ok <==> PassesGuard(addr, |file|) && forall i :: 0 <= i < |file| ==> Place(addr, i) in s.cells)
  {
    hide Concat, LoadChunks, Overlaid, PassesGuard, Low16, Load;
    var file := Concat(chunks);
    if PassesGuard(addr, |file|) {
      ChunksAreOneLoad(s, addr, chunks);
      LoadOverlays(s, addr, file);
      ReachIsFirstGap(s, addr, |file|);
    } else {
      NothingOverlaid(s, addr);
    }
  }

  lemma BackedRange(s: Bus.Space, addr: uint16, size: nat)
    requires addr + size <= 0x1_0000
    ensures (forall i :: 0 <= i < size ==> Place(addr, i) in s.cells) <==>
            (forall a: uint16 :: addr <= a < addr + size ==> a in s.cells)
  {
    if forall i :: 0 <= i < size ==> Place(addr, i) in s.cells {
      forall a: uint16 | addr <= a < addr + size
        ensures a in s.cells
      {
        assert Place(addr, a - addr) == a;
      }
    }
  }

  /** A file that fits is loaded iff its addresses are backed, and then lies at its address with everything else
      unchanged. */
  lemma FittingFile(s: Bus.Space, addr: uint16, chunks: seq<seq<uint8>>)
    requires addr + |Concat(chunks)| <= 0x1_0000
    ensures var file, r := Concat(chunks), LoadFile(s, addr, chunks);
            && (r.ok <==> forall a: uint16 :: addr <= a < addr + |file| ==> a in s.cells)
            && (r.ok ==> r.space.kinds == s.kinds && r.space.cells.Keys == s.cells.Keys)
            && (r.ok ==> forall a: uint16 :: a in s.cells ==>
                  r.space.cells[a] == if addr <= a < addr + |file| then file[a - addr] else s.cells[a])
  {
    hide Concat, LoadFile, PassesGuard, Latest, Reach;
    var file := Concat(chunks);
    var r := LoadFile(s, addr, chunks);
    FileLoadOutcome(s, addr, chunks);
    GuardWraps(addr, |file|);
    ReachIsFirstGap(s, addr, |file|);
    BackedRange(s, addr, |file|);
    if r.ok {
      assert file[..|file|] == file;
      forall a: uint16 | a in s.cells
        ensures r.space.cells[a] == if addr <= a < addr + |file| then file[a - addr] else s.cells[a]
      {
        LatestWithoutWrap(addr, |file|, a);
      }
    }
  }

  ghost predicate AllBacked(s: Bus.Space) {
    forall a: uint16 :: a in s.cells
  }

  /** A file that does not fit is refused exactly when its length test fails without wrapping or some address of
      the whole space is unbacked. */
  lemma OversizeFile(s: Bus.Space, addr: uint16, chunks: seq<seq<uint8>>)
    requires addr + |Concat(chunks)| > 0x1_0000
    ensures !LoadFile(s, addr, chunks).ok <==> Low32(addr + |Concat(chunks)|) > 0x1_0000 || !AllBacked(s)
  {
    hide Concat, LoadFile, PassesGuard;
    var file := Concat(chunks);
    FileLoadOutcome(s, addr, chunks);
    GuardWraps(addr, |file|);
    if Low32(addr + |file|) <= 0x1_0000 {
      WrappedIsLong(addr, |file|);
      BackedEverywhere(s, addr, |file|);
    }
  }

  lemma BackedEverywhere(s: Bus.Space, addr: uint16, size: nat)
    requires size >= 0x1_0000
    ensures (forall i :: 0 <= i < size ==> Place(addr, i) in s.cells) <==> AllBacked(s)
  {
    if forall i :: 0 <= i < size ==> Place(addr, i) in s.cells {
      forall a: uint16
        ensures a in s.cells
      {
        assert Place(addr, Low16(a - addr)) == a;
      }
    }
  }

  lemma WrappedIsLong(addr: uint16, size: nat)
    requires addr + size > 0x1_0000 && Low32(addr + size) <= 0x1_0000
    ensures size >= 0x1_0000
  {
  }

  /** A file of 4 GiB passes the test at any address: it runs 65536 times round the address space, and the last
      65536 bytes stay. */
  lemma FourGigabytesAccepted(s: Bus.Space, addr: uint16, chunks: seq<seq<uint8>>)
    requires |Concat(chunks)| == 0x1_0000_0000 && AllBacked(s)
    ensures var file, r := Concat(chunks), LoadFile(s, addr, chunks);
            && addr + |file| > 0x1_0000 && r.ok
            && forall a: uint16 :: a in r.space.cells && r.space.cells[a] == file[0xFFFF_0000 + Low16(a - addr)]
  {
    hide Concat, LoadFile, Latest, Reach;
    var file := Concat(chunks);
    OversizeFile(s, addr, chunks);
    FileLoadOutcome(s, addr, chunks);
    ReachIsFirstGap(s, addr, |file|);
    assert file[..|file|] == file;
    forall a: uint16
      ensures Latest(addr, |file|, a) == Some(0xFFFF_0000 + Low16(a - addr))
    {
      LatestBound(addr, |file|, a);
      LastRound(addr, a, Latest(addr, |file|, a));
    }
  }

  lemma LastRound(addr: uint16, a: uint16, latest: Option<nat>)
    requires latest.Some? ==> latest.value < 0x1_0000_0000 && Place(addr, latest.value) == a
    requires forall i :: (if latest.Some? then latest.value else -1) < i < 0x1_0000_0000 ==> Place(addr, i) != a
    ensures latest == Some(0xFFFF_0000 + Low16(a - addr))
  {
    var i := 0xFFFF_0000 + Low16(a - addr);
    assert Place(addr, i) == a;
  }
}
