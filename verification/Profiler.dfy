/** Execution counters and the hotspot listing made from them. */
module Profiler {
  import opened Types

  const ADDRESSES: nat := 0x1_0000
  const WRAP: nat := 0x1_0000_0000_0000_0000

  function Sum(counts: seq<uint64>): nat {
    if counts == [] then 0 else Sum(counts[..|counts| - 1]) + counts[|counts| - 1]
  }

  function Successor(count: uint64): uint64 {
    Low64(count + 1)
  }

  function Incremented(counts: seq<uint64>, i: nat): seq<uint64>
    requires i < |counts|
  {
    counts[i := Successor(counts[i])]
  }

  lemma {:induction false} SumUpdate(counts: seq<uint64>, i: nat, value: uint64)
    requires i < |counts|
    ensures Sum(counts[i := value]) == Sum(counts) - counts[i] + value
  {
    var last := |counts| - 1;
    var updated := counts[i := value];
    if i == last {
      assert updated[..last] == counts[..last];
    } else {
      assert updated[..last] == counts[..last][i := value];
      SumUpdate(counts[..last], i, value);
    }
  }

  lemma {:induction false} CountBelowSum(counts: seq<uint64>, i: nat)
    requires i < |counts|
    ensures counts[i] <= Sum(counts)
  {
    var last := |counts| - 1;
    if i < last {
      CountBelowSum(counts[..last], i);
    }
  }

  /** The counters account for `recorded` instructions: modulo 2^64 always, exactly until that many are recorded. */
  ghost predicate Accounts(counts: seq<uint64>, recorded: nat) {
    Sum(counts) % WRAP == recorded % WRAP && (recorded < WRAP ==> Sum(counts) == recorded)
  }

  lemma IncrementAccounts(counts: seq<uint64>, i: nat, recorded: nat)
    requires i < |counts| && Accounts(counts, recorded)
    ensures Accounts(Incremented(counts, i), recorded + 1)
  {
    hide Sum;
    SumUpdate(counts, i, Successor(counts[i]));
    CountBelowSum(counts, i);
    var before, after := Sum(counts), Sum(Incremented(counts, i));
    if counts[i] as int + 1 == WRAP {
      assert after == before + 1 - WRAP;
    } else {
      assert after == before + 1;
    }
    NextModulo(before, recorded);
  }

  lemma NextModulo(before: nat, recorded: nat)
    requires before % WRAP == recorded % WRAP
    ensures (before + 1) % WRAP == (recorded + 1) % WRAP
    ensures before + 1 >= WRAP ==> (before + 1 - WRAP) % WRAP == (recorded + 1) % WRAP
  {
  }

  class ProfilingData {
    var totalCycles: uint64
    const instructionCounts: array<uint64>
    const addressCounts: array<uint64>
    var enabled: bool
    /** Instructions recorded since the counters were last cleared. */
    ghost var recorded: nat

    ghost predicate Valid()
      reads this, instructionCounts, addressCounts
    {
      && instructionCounts.Length == 0x100 && addressCounts.Length == ADDRESSES
      && instructionCounts != addressCounts
      && Accounts(instructionCounts[..], recorded)
      && Accounts(addressCounts[..], recorded)
    }

    constructor ()
      ensures Valid() && recorded == 0 && enabled && totalCycles == 0
    {
      totalCycles, enabled, recorded := 0, true, 0;
      instructionCounts := new uint64[0x100](_ => 0);
      addressCounts := new uint64[ADDRESSES](_ => 0);
      new;
      AllZeros(instructionCounts[..]);
      AllZeros(addressCounts[..]);
    }

    /** Counts one instruction at its opcode and its address. */
    method RecordInstruction(pc: uint16, opcode: uint8, cycles: uint32)
      requires Valid()
      modifies this, instructionCounts, addressCounts
      ensures Valid() && enabled == old(enabled)
      ensures recorded == old(recorded) + if enabled then 1 else 0
      ensures enabled ==>
                && totalCycles == Low64(old(totalCycles) + cycles)
                && instructionCounts[..] == Incremented(old(instructionCounts[..]), opcode)
                && addressCounts[..] == Incremented(old(addressCounts[..]), pc)
      ensures !enabled ==>
                totalCycles == old(totalCycles) && instructionCounts[..] == old(instructionCounts[..]) &&
                addressCounts[..] == old(addressCounts[..])
    {
      hide Sum, Accounts;
      if !enabled { return; }
      totalCycles := Low64(totalCycles + cycles);
      instructionCounts[opcode] := Successor(instructionCounts[opcode]);
      addressCounts[pc] := Successor(addressCounts[pc]);
      recorded := recorded + 1;
      IncrementAccounts(old(instructionCounts[..]), opcode, old(recorded));
      IncrementAccounts(old(addressCounts[..]), pc, old(recorded));
      assert instructionCounts[..] == Incremented(old(instructionCounts[..]), opcode);
      assert addressCounts[..] == Incremented(old(addressCounts[..]), pc);
    }
  }

  lemma {:induction false} AllZeros(counts: seq<uint64>)
    requires forall i :: 0 <= i < |counts| ==> counts[i] == 0
    ensures Sum(counts) == 0
  {
    if counts != [] {
      AllZeros(counts[..|counts| - 1]);
    }
  }

  datatype Hotspot = Hotspot(addr: uint16, count: uint64)

  /** The executed addresses below `limit` with their counts, in address order. */
  function Active(counts: seq<uint64>, limit: nat): seq<Hotspot>
    requires limit <= |counts| <= ADDRESSES
  {
    if limit == 0 then []
    else Active(counts, limit - 1) +
         if counts[limit - 1] > 0 then [Hotspot(limit - 1, counts[limit - 1])] else []
  }

  /** Each executed address appears once, with its exact count, and nothing else does. */
  lemma {:induction false} ActiveExact(counts: seq<uint64>, limit: nat)
    requires limit <= |counts| <= ADDRESSES
    ensures var hot := Active(counts, limit);
            && (forall h :: h in hot <==> h.addr < limit && counts[h.addr] > 0 && h.count == counts[h.addr])
            && (forall i, j :: 0 <= i < j < |hot| ==> hot[i].addr < hot[j].addr)
    decreases limit
  {
    if limit > 0 {
      ActiveExact(counts, limit - 1);
    }
  }

  /** Entries before `placed` are in descending order and none after them counts more. */
  ghost predicate TopPlaced(hot: seq<Hotspot>, placed: nat) {
    forall i, j :: 0 <= i < placed && i < j < |hot| ==> hot[i].count >= hot[j].count
  }

  function Swapped(hot: seq<Hotspot>, i: nat, j: nat): seq<Hotspot>
    requires i < |hot| && j < |hot|
  {
    hot[i := hot[j]][j := hot[i]]
  }

  lemma SwappedIs(hot: seq<Hotspot>, i: nat, j: nat)
    requires i < |hot| && j < |hot|
    ensures Swapped(hot, i, j) == hot[i := hot[j]][j := hot[i]]
  {
  }

  lemma SwapPermutes(hot: seq<Hotspot>, i: nat, j: nat)
    requires i < j < |hot|
    ensures multiset(Swapped(hot, i, j)) == multiset(hot)
  {
  }

  function Limit(topN: int, available: nat): nat {
    if topN <= 0 then 0 else if topN < available then topN else available
  }

  lemma SwapKeepsTop(hot: seq<Hotspot>, i: nat, j: nat)
    requires i < j < |hot| && TopPlaced(hot, i)
    ensures TopPlaced(Swapped(hot, i, j), i)
  {
  }

  /** One pass of the exchange loop: leaves the largest of the entries from `i` on at `i`. */
  method PlaceLargest(hotspots: array<Hotspot>, i: nat)
    requires i < hotspots.Length && TopPlaced(hotspots[..], i)
    modifies hotspots
    ensures multiset(hotspots[..]) == multiset(old(hotspots[..]))
    ensures TopPlaced(hotspots[..], i + 1)
  {
    hide Swapped;
    var j := i + 1;
    while j < hotspots.Length
      invariant i < j <= hotspots.Length
      invariant multiset(hotspots[..]) == multiset(old(hotspots[..]))
      invariant TopPlaced(hotspots[..], i)
      invariant forall k :: i < k < j ==> hotspots[i].count >= hotspots[k].count
    {
      if hotspots[j].count > hotspots[i].count {
        ghost var before := hotspots[..];
        SwapPermutes(before, i, j);
        SwapKeepsTop(before, i, j);
        var temp := hotspots[i];
        hotspots[i] := hotspots[j];
        hotspots[j] := temp;
        assert hotspots[..] == before[i := before[j]][j := before[i]];
        SwappedIs(before, i, j);
      }
      j := j + 1;
    }
  }

  /** Exchanges entries until the first `topN` are the largest, in descending order. */
  method PartialSort(hotspots: array<Hotspot>, topN: int)
    modifies hotspots
    ensures multiset(hotspots[..]) == multiset(old(hotspots[..]))
    ensures TopPlaced(hotspots[..], Limit(topN, hotspots.Length))
  {
    var i := 0;
    while i < hotspots.Length && i < topN
      invariant 0 <= i <= hotspots.Length && (i <= topN || i == 0)
      invariant multiset(hotspots[..]) == multiset(old(hotspots[..]))
      invariant TopPlaced(hotspots[..], i)
    {
      PlaceLargest(hotspots, i);
      i := i + 1;
    }
  }

  predicate DistinctAddresses(hot: seq<Hotspot>) {
    forall i, j :: 0 <= i < j < |hot| ==> hot[i].addr != hot[j].addr
  }

  /** `top` lists `n` of the entries, each once, the largest first, and no entry left out counts more. */
  ghost predicate IsTop(top: seq<Hotspot>, entries: seq<Hotspot>, n: nat) {
    && |top| == n && DistinctAddresses(top)
    && (forall h :: h in top ==> h in entries)
    && (forall i, j :: 0 <= i < j < |top| ==> top[i].count >= top[j].count)
    && (forall h, i :: h in entries && h !in top && 0 <= i < |top| ==> top[i].count >= h.count)
  }

  lemma {:induction false} OccursOnce(hot: seq<Hotspot>, h: Hotspot)
    requires DistinctAddresses(hot)
    ensures multiset(hot)[h] <= 1
  {
    if hot != [] {
      var rest, last := hot[..|hot| - 1], hot[|hot| - 1];
      assert hot == rest + [last];
      OccursOnce(rest, h);
      if last == h {
        assert h !in rest;
        assert h !in multiset(rest);
      }
    }
  }

  lemma TwiceCounted(hot: seq<Hotspot>, i: nat, j: nat)
    requires i < j < |hot| && hot[i] == hot[j]
    ensures multiset(hot)[hot[i]] >= 2
  {
    var rest := hot[..j];
    assert rest[i] == hot[i] && hot[i] in multiset(rest);
    assert hot == rest + [hot[j]] + hot[j + 1..];
  }

  lemma PermutationDistinct(hot: seq<Hotspot>, entries: seq<Hotspot>)
    requires multiset(hot) == multiset(entries) && DistinctAddresses(entries)
    ensures DistinctAddresses(hot)
    ensures forall h :: h in hot <==> h in entries
  {
    forall h
      ensures h in hot <==> h in entries
    {
      assert h in hot <==> h in multiset(hot);
      assert h in entries <==> h in multiset(entries);
    }
    forall i, j | 0 <= i < j < |hot|
      ensures hot[i].addr != hot[j].addr
    {
      if hot[i] == hot[j] {
        TwiceCounted(hot, i, j);
        OccursOnce(entries, hot[i]);
      } else {
        assert hot[i] in hot && hot[j] in hot;
        var k :| 0 <= k < |entries| && entries[k] == hot[i];
        var l :| 0 <= l < |entries| && entries[l] == hot[j];
      }
    }
  }

  lemma PrefixHolds(hot: seq<Hotspot>, n: nat)
    requires n <= |hot|
    ensures forall k :: 0 <= k < n ==> hot[k] in hot[..n]
  {
    forall k | 0 <= k < n
      ensures hot[k] in hot[..n]
    {
      assert hot[..n][k] == hot[k];
    }
  }

  lemma PlacedIsTop(hot: seq<Hotspot>, entries: seq<Hotspot>, n: nat)
    requires n <= |hot| && TopPlaced(hot, n) && multiset(hot) == multiset(entries) && DistinctAddresses(entries)
    ensures IsTop(hot[..n], entries, n)
  {
    PermutationDistinct(hot, entries);
    PrefixHolds(hot, n);
    var top := hot[..n];
    forall h | h in top
      ensures h in entries
    {
      assert h in hot;
    }
    forall h, i | h in entries && h !in top && 0 <= i < n
      ensures top[i].count >= h.count
    {
      var k :| 0 <= k < |hot| && hot[k] == h;
    }
  }

  /** Prints the hotspots, here as the sequence of printed entries: the true top `topN` of the executed addresses,
      with their exact counts. */
  method DumpHotspots(profile: ProfilingData, topN: int) returns (printed: seq<Hotspot>)
    requires profile.Valid()
    ensures var active := Active(profile.addressCounts[..], ADDRESSES);
            IsTop(printed, active, Limit(topN, |active|))
  {
    hide IsTop, Accounts, Active, Sum;
    ghost var counts := profile.addressCounts[..];
    ghost var active := Active(counts, ADDRESSES);
    ActiveExact(counts, ADDRESSES);
    var activeCount := CountActive(profile);
    if activeCount == 0 {
      PlacedIsTop([], active, 0);
      return [];
    }
    var hotspots := CollectActive(profile, activeCount);
    PartialSort(hotspots, topN);
    PlacedIsTop(hotspots[..], active, Limit(topN, |active|));
    printed := [];
    var limit := if topN < activeCount then topN else activeCount;
    var i := 0;
    while i < limit
      invariant 0 <= i && i <= Limit(topN, |active|) && printed == hotspots[..i]
    {
      printed := printed + [hotspots[i]];
      i := i + 1;
    }
    assert i == Limit(topN, |active|);
  }

  method CountActive(profile: ProfilingData) returns (activeCount: nat)
    requires profile.Valid()
    ensures activeCount == |Active(profile.addressCounts[..], ADDRESSES)|
  {
    hide Accounts, Sum;
    activeCount := 0;
    var addr := 0;
    while addr < ADDRESSES
      invariant 0 <= addr <= ADDRESSES && activeCount == |Active(profile.addressCounts[..], addr)|
    {
      if profile.addressCounts[addr] > 0 {
        activeCount := activeCount + 1;
      }
      addr := addr + 1;
    }
  }

  lemma {:induction false} ActiveGrows(counts: seq<uint64>, low: nat, high: nat)
    requires low <= high <= |counts| <= ADDRESSES
    ensures |Active(counts, low)| <= |Active(counts, high)|
    decreases high
  {
    if low < high {
      ActiveGrows(counts, low, high - 1);
    }
  }

  method CollectActive(profile: ProfilingData, activeCount: nat) returns (hotspots: array<Hotspot>)
    requires profile.Valid() && activeCount == |Active(profile.addressCounts[..], ADDRESSES)|
    ensures fresh(hotspots) && hotspots[..] == Active(profile.addressCounts[..], ADDRESSES)
  {
    hide Accounts, Sum;
    hotspots := new Hotspot[activeCount];
    ghost var counts := profile.addressCounts[..];
    var filled, addr := 0, 0;
    while addr < ADDRESSES
      invariant 0 <= addr <= ADDRESSES && filled == |Active(counts, addr)| <= activeCount
      invariant counts == profile.addressCounts[..]
      invariant hotspots[..filled] == Active(counts, addr)
    {
      ActiveGrows(counts, addr + 1, ADDRESSES);
      if profile.addressCounts[addr] > 0 {
        hotspots[filled] := Hotspot(addr, profile.addressCounts[addr]);
        filled := filled + 1;
      }
      addr := addr + 1;
    }
    assert hotspots[..filled] == hotspots[..];
  }
}
