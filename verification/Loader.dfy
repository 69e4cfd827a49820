/** Loading a binary file, read in chunks, into the region memory. */
module Loader {
  import opened Types
  import opened Memory
  import opened Loading
  import Bus

  const BUFFER_SIZE: nat := 4096

  /** What successive reads of the file deliver: nonempty pieces no larger than the buffer. */
  predicate AreReads(chunks: seq<seq<uint8>>) {
    forall i :: 0 <= i < |chunks| ==> 0 < |chunks[i]| <= BUFFER_SIZE
  }

  lemma SameAddress(addr: uint16, offset: uint32, count: nat)
    ensures Low16(Low16(addr + offset)) == Low16(addr + offset)
    ensures Low16(addr + Low32(offset + count)) == Low16(addr + offset + count)
  {
    hide Low16;
    var low: int, q := Low32(offset + count), (offset + count) / 0x1_0000_0000;
    assert low + 0x1_0000 * (0x1_0000 * q) == offset + count;
    Low16Shift(addr + low, 0x1_0000 * q);
    Low16Self(Low16(addr + offset));
  }

  lemma Low16Shift(x: int, k: int)
    ensures Low16(x + 0x1_0000 * k) == Low16(x)
  {
  }

  lemma Low16Self(w: uint16)
    ensures Low16(w) == w
  {
  }

  /** The next chunk goes where the 16-bit address points, and the rest where the 32-bit offset then stands. */
  lemma NextChunk(s: Bus.Space, addr: uint16, offset: uint32, rest: seq<seq<uint8>>)
    requires rest != []
    ensures LoadChunks(s, addr + offset, rest) ==
            var first := Load(s, Low16(addr + offset), rest[0]);
            if first.ok then LoadChunks(first.space, addr + Low32(offset + |rest[0]|), rest[1..]) else first
  {
    hide Load, Low16, Low32;
    SameAddress(addr, offset, |rest[0]|);
    LoadModulo(s, addr + offset, Low16(addr + offset), rest[0]);
    var first := Load(s, addr + offset, rest[0]);
    LoadChunksModulo(first.space, addr + offset + |rest[0]|, addr + Low32(offset + |rest[0]|), rest[1..]);
  }

  lemma NoChunkLeft(s: Bus.Space, addr: int)
    ensures LoadChunks(s, addr, []) == Loaded(s, true)
  {
  }

  method LoadBinRegion(mem: RegionMemory, addr: uint16, chunks: seq<seq<uint8>>) returns (code: int)
    requires mem.Valid() && AreReads(chunks)
    modifies mem`space, mem.buffers
    ensures mem.Valid()
    ensures Loaded(mem.space, code == 0) == LoadFile(old(mem.space), addr, chunks)
  {
    hide Load, LoadChunks, Concat, Low16, Low32;
    var fileSize: uint32 := Low32(|Concat(chunks)|);
    if Low32(addr + fileSize) > 0x1_0000 { return -1; }
    var offset: uint32, n := 0, 0;
    while n < |chunks|
      invariant 0 <= n <= |chunks|
      invariant mem.Valid()
      invariant LoadChunks(old(mem.space), addr, chunks) == LoadChunks(mem.space, addr + offset, chunks[n..])
    {
      var rest := chunks[n..];
      assert rest[1..] == chunks[n + 1..] && rest[0] == chunks[n];
      NextChunk(mem.space, addr, offset, rest);
      var status := mem.Load(Low16(addr + offset), chunks[n]);
      if status != 0 { return -1; }
      offset := Low32(offset + |chunks[n]|);
      n := n + 1;
    }
    assert chunks[n..] == [];
    NoChunkLeft(mem.space, addr + offset);
    return 0;
  }
}
