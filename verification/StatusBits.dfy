/** The status byte bit by bit: where each flag lies. */
module StatusBits {
  import opened Types
  import opened StatusRegister

  /** Bit `i` of a byte. */
  predicate Bit(byte: uint8, i: nat)
    requires i < 8
  {
    match i
    case 0 => byte % 2 == 1
    case 1 => byte / 2 % 2 == 1
    case 2 => byte / 4 % 2 == 1
    case 3 => byte / 8 % 2 == 1
    case 4 => byte / 16 % 2 == 1
    case 5 => byte / 32 % 2 == 1
    case 6 => byte / 64 % 2 == 1
    case _ => byte / 128 == 1
  }

  /** N V . . D I Z C lie in bits 7, 6, 3, 2, 1 and 0. */
  predicate SaysFlags(byte: uint8, p: Status) {
    && (Bit(byte, 7) <==> p.n) && (Bit(byte, 6) <==> p.v) && (Bit(byte, 3) <==> p.d)
    && (Bit(byte, 2) <==> p.i) && (Bit(byte, 1) <==> p.z) && (Bit(byte, 0) <==> p.c)
  }

  lemma BitsOfNibbles(high: nat, low: nat)
    requires high < 0x10 && low < 0x10
    ensures var byte := 0x10 * high + low;
            && (Bit(byte, 7) <==> NibbleBit(high, 8)) && (Bit(byte, 6) <==> NibbleBit(high, 4))
            && (Bit(byte, 5) <==> NibbleBit(high, 2)) && (Bit(byte, 4) <==> NibbleBit(high, 1))
            && (Bit(byte, 3) <==> NibbleBit(low, 8)) && (Bit(byte, 2) <==> NibbleBit(low, 4))
            && (Bit(byte, 1) <==> NibbleBit(low, 2)) && (Bit(byte, 0) <==> NibbleBit(low, 1))
  {
    HighBits(high, low);
    LowBits(high, low);
  }

  lemma HighBits(high: nat, low: nat)
    requires high < 0x10 && low < 0x10
    ensures var byte := 0x10 * high + low;
            byte / 128 == high / 8 && byte / 64 == high / 4 && byte / 32 == high / 2 && byte / 16 == high
    ensures (high / 8 == 1 <==> high >= 8) && (high / 4 % 2 == 1 <==> high % 8 >= 4)
    ensures (high / 2 % 2 == 1 <==> high % 4 >= 2)
  {
  }

  lemma LowBits(high: nat, low: nat)
    requires high < 0x10 && low < 0x10
    ensures var byte := 0x10 * high + low;
            byte / 8 % 2 == low / 8 && byte / 4 % 2 == low / 4 % 2 && byte / 2 % 2 == low / 2 % 2 && byte % 2 == low % 2
    ensures (low / 8 == 1 <==> low >= 8) && (low / 4 % 2 == 1 <==> low % 8 >= 4)
    ensures (low / 2 % 2 == 1 <==> low % 4 >= 2)
  {
    EvenPart(high, low / 8);
    EvenPart(2 * high, low / 4);
    EvenPart(4 * high, low / 2);
    EvenPart(8 * high, low);
  }

  lemma EvenPart(high: nat, low: nat)
    ensures (2 * high + low) % 2 == low % 2
  {
  }

  /** The packed byte has every flag in its bit. */
  lemma PackBits(p: Status)
    ensures SaysFlags(Pack(p), p) && (Bit(Pack(p), 5) <==> p.u) && (Bit(Pack(p), 4) <==> p.b)
  {
    hide Bit, NibbleBit, Nibble;
    BitsOfNibbles(Nibble(p.n, p.v, p.u, p.b), Nibble(p.d, p.i, p.z, p.c));
    NibbleRoundTrip(p.n, p.v, p.u, p.b);
    NibbleRoundTrip(p.d, p.i, p.z, p.c);
  }

  /** Unpacking takes every flag from its bit. */
  lemma UnpackBits(byte: uint8)
    ensures var p := Unpack(byte); SaysFlags(byte, p) && (Bit(byte, 5) <==> p.u) && (Bit(byte, 4) <==> p.b)
  {
    hide Bit, NibbleBit;
    BitsOfNibbles(byte / 0x10, byte % 0x10);
  }
}
