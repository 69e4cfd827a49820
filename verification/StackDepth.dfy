/** Counting bytes on the wrapping stack: where pushes land relative to the bytes that open frames saved. */
module StackDepth {
  import opened Types
  import opened Stack
  import opened Frame

  /** Depth of S below `base` in bytes now, and when each open frame began; a frame saves `saved` bytes. Pulls past
      `base` make the depth negative. */
  datatype Depths = Depths(base: uint8, saved: nat, depth: int, levels: seq<int>)

  function SlotAt(base: uint8, depth: int): uint8 {
    Low8(base - depth)
  }

  /** Depth just after the innermost frame began. */
  function Floor(d: Depths): int
    requires d.levels != []
  {
    d.levels[|d.levels| - 1] + d.saved
  }

  /** S and the values it had when the open frames began stand at these depths, outermost first. */
  ghost predicate Placed(d: Depths, s: uint8, tops: seq<uint8>) {
    && s == SlotAt(d.base, d.depth) && |d.levels| == |tops|
    && (forall i :: 0 <= i < |tops| ==> tops[i] == SlotAt(d.base, d.levels[i]))
    && (forall i, j :: 0 <= i < j < |tops| ==> d.levels[i] + d.saved <= d.levels[j])
  }

  /** Room for `count` pushes: they start no higher than the innermost frame left S and stay within 256 bytes of
      where the outermost one began. */
  predicate HasRoom(d: Depths, count: nat) {
    count > 0 && d.levels != [] ==> Floor(d) <= d.depth && d.depth + count - d.levels[0] <= 0x100
  }

  function Opened(d: Depths): Depths {
    d.(depth := d.depth + d.saved, levels := d.levels + [d.depth])
  }

  function Closed(d: Depths): Depths
    requires d.levels != []
  {
    d.(depth := d.levels[|d.levels| - 1], levels := d.levels[..|d.levels| - 1])
  }

  function Moved(d: Depths, pushed: nat, pulled: nat): Depths {
    d.(depth := d.depth + pushed - pulled)
  }

  /** S set to `s`: at or below the floor, less than 256 bytes away. */
  function SetTo(d: Depths, s: uint8): Depths {
    var floor := if d.levels == [] then d.depth else Floor(d);
    d.(depth := floor + Low8(d.base - floor - s))
  }

  lemma {:induction false} PushSlotDepth(base: uint8, depth: int, count: nat, slot: uint16) returns (k: int)
    requires slot in SlotsBelow(SlotAt(base, depth), count)
    ensures depth <= k < depth + count && slot == Slot(SlotAt(base, k))
    decreases count
  {
    if slot == Slot(SlotAt(base, depth)) {
      k := depth;
    } else {
      assert Low8(SlotAt(base, depth) - 1) == SlotAt(base, depth + 1);
      k := PushSlotDepth(base, depth + 1, count - 1, slot);
    }
  }

  lemma DepthsApart(base: uint8, i: int, j: int)
    requires i < j < i + 0x100
    ensures SlotAt(base, i) != SlotAt(base, j)
  {
  }

  /** Pushes for which there is room meet no saved byte. */
  lemma PushesMissSaved(d: Depths, s: uint8, tops: seq<uint8>, count: nat)
    requires Placed(d, s, tops) && HasRoom(d, count)
    ensures forall top :: top in tops ==> SlotsBelow(s, count) !! SlotsBelow(top, d.saved)
  {
    hide SlotAt;
    forall i, slot | 0 <= i < |tops| && slot in SlotsBelow(s, count)
      ensures slot !in SlotsBelow(tops[i], d.saved)
    {
      LevelBetween(d, s, tops, i);
      var k := PushSlotDepth(d.base, d.depth, count, slot);
      if slot in SlotsBelow(tops[i], d.saved) {
        var j := PushSlotDepth(d.base, d.levels[i], d.saved, slot);
        DepthsApart(d.base, j, k);
      }
    }
  }

  lemma LevelBetween(d: Depths, s: uint8, tops: seq<uint8>, i: nat)
    requires Placed(d, s, tops) && i < |tops|
    ensures d.levels[0] <= d.levels[i] && d.levels[i] + d.saved <= Floor(d)
  {
    var last := |tops| - 1;
    assert i < last ==> d.levels[i] + d.saved <= d.levels[last];
    assert 0 < i ==> d.levels[0] + d.saved <= d.levels[i];
  }

  lemma MovedPlaced(d: Depths, s: uint8, tops: seq<uint8>, pushed: nat, pulled: nat)
    requires Placed(d, s, tops)
    ensures Placed(Moved(d, pushed, pulled), Low8(s - pushed + pulled), tops)
  {
  }

  lemma OpenedPlaced(d: Depths, s: uint8, tops: seq<uint8>)
    requires Placed(d, s, tops) && HasRoom(d, d.saved) && d.saved > 0
    ensures Placed(Opened(d), Low8(s - d.saved), tops + [s])
  {
    forall i | 0 <= i < |tops|
      ensures d.levels[i] + d.saved <= d.depth
    {
      LevelBetween(d, s, tops, i);
    }
    MovedPlaced(d, s, tops, d.saved, 0);
  }

  /** A frame is left with S where its opening left it. */
  lemma ClosedPlaced(d: Depths, s: uint8, tops: seq<uint8>)
    requires Placed(d, s, tops) && tops != [] && s == Low8(tops[|tops| - 1] - d.saved)
    ensures Placed(Closed(d), Low8(s + d.saved), tops[..|tops| - 1])
  {
    ThereAndBack(tops[|tops| - 1], d.saved);
  }

  lemma ThereAndBack(s: uint8, count: nat)
    ensures Low8(Low8(s - count) + count) == s
  {
  }

  lemma SetPlaced(d: Depths, s: uint8, tops: seq<uint8>, x: uint8)
    requires Placed(d, s, tops)
    ensures Placed(SetTo(d, x), x, tops)
  {
    hide Floor;
  }
}
