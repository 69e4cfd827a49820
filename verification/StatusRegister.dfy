/** The P register, kept as its eight flags; `Pack` and `Unpack` convert to the byte on the stack. */
module StatusRegister {
  import opened Types

  datatype Status = Status(n: bool, v: bool, u: bool, b: bool, d: bool, i: bool, z: bool, c: bool)

  function Weight(flag: bool, weight: nat): nat {
    if flag then weight else 0
  }

  function Carry(p: Status): nat {
    Weight(p.c, 1)
  }

  /** Four flags as a nibble, most significant first. */
  function Nibble(f3: bool, f2: bool, f1: bool, f0: bool): (r: nat)
    ensures r < 0x10
  {
    Weight(f3, 8) + Weight(f2, 4) + Weight(f1, 2) + Weight(f0, 1)
  }

  /** FLAG_N .. FLAG_C carry the weights 0x80 .. 0x01. */
  function Pack(p: Status): uint8 {
    0x10 * Nibble(p.n, p.v, p.u, p.b) + Nibble(p.d, p.i, p.z, p.c)
  }

  predicate NibbleBit(nibble: nat, weight: nat)
    requires weight in {1, 2, 4, 8}
  {
    match weight
    case 8 => nibble >= 8
    case 4 => nibble % 8 >= 4
    case 2 => nibble % 4 >= 2
    case _ => nibble % 2 == 1
  }

  function Unpack(byte: uint8): Status {
    var high, low := byte / 0x10, byte % 0x10;
    Status(NibbleBit(high, 8), NibbleBit(high, 4), NibbleBit(high, 2), NibbleBit(high, 1),
           NibbleBit(low, 8), NibbleBit(low, 4), NibbleBit(low, 2), NibbleBit(low, 1))
  }

  lemma NibbleRoundTrip(f3: bool, f2: bool, f1: bool, f0: bool)
    ensures var x := Nibble(f3, f2, f1, f0);
            NibbleBit(x, 8) == f3 && NibbleBit(x, 4) == f2 && NibbleBit(x, 2) == f1 && NibbleBit(x, 1) == f0
  {
  }

  lemma NibbleOfBits(x: nat)
    requires x < 0x10
    ensures Nibble(NibbleBit(x, 8), NibbleBit(x, 4), NibbleBit(x, 2), NibbleBit(x, 1)) == x
  {
    var x3 := if x >= 8 then x - 8 else x;
    var x2 := if x3 >= 4 then x3 - 4 else x3;
    var x1 := if x2 >= 2 then x2 - 2 else x2;
    assert x % 8 == x3;
    assert x % 4 == x2;
    assert x % 2 == x1;
  }

  lemma PackUnpack(byte: uint8)
    ensures Pack(Unpack(byte)) == byte
  {
    NibbleOfBits(byte / 0x10);
    NibbleOfBits(byte % 0x10);
  }

  lemma UnpackPack(p: Status)
    ensures Unpack(Pack(p)) == p
  {
    NibbleRoundTrip(p.n, p.v, p.u, p.b);
    NibbleRoundTrip(p.d, p.i, p.z, p.c);
    assert Pack(p) / 0x10 == Nibble(p.n, p.v, p.u, p.b) && Pack(p) % 0x10 == Nibble(p.d, p.i, p.z, p.c);
  }

  /** Z and N of a loaded or computed byte; the other flags stay. */
  function SetZN(p: Status, value: uint8): Status {
    p.(z := value == 0, n := Bit7(value))
  }

  /** The six flags that survive a trip through the stack. */
  predicate SameFlags(p: Status, q: Status) {
    p.n == q.n && p.v == q.v && p.d == q.d && p.i == q.i && p.z == q.z && p.c == q.c
  }
}
