/** Fixed-width integers of the emulator and the truncations C applies to them. */
module Types {
  type uint8 = x: int | 0 <= x < 0x100
  type uint16 = x: int | 0 <= x < 0x1_0000
  type uint32 = x: int | 0 <= x < 0x1_0000_0000
  type uint64 = x: int | 0 <= x < 0x1_0000_0000_0000_0000
  type int8 = x: int | -0x80 <= x < 0x80

  datatype Option<+T> = None | Some(value: T)

  function Low8(x: int): uint8 {
    x % 0x100
  }

  function Low16(x: int): uint16 {
    x % 0x1_0000
  }

  function Low32(x: int): uint32 {
    x % 0x1_0000_0000
  }

  function Low64(x: int): uint64 {
    x % 0x1_0000_0000_0000_0000
  }

  function Signed8(b: uint8): int8 {
    if b < 0x80 then b else b - 0x100
  }

  /** The little-endian word `lo | hi << 8`. */
  function Word(lo: uint8, hi: uint8): uint16 {
    lo + 0x100 * hi
  }

  function LowByte(w: uint16): uint8 {
    w % 0x100
  }

  function HighByte(w: uint16): uint8 {
    w / 0x100
  }

  lemma WordOfBytes(w: uint16)
    ensures Word(LowByte(w), HighByte(w)) == w
  {
  }

  predicate SamePage(a: uint16, b: uint16) {
    a / 0x100 == b / 0x100
  }

  lemma BitsOfByte(a: uint8)
    ensures (a as bv8) as int == a
  {
    assert a % 0x100 == a;
    var x := a as bv8;
  }

  function And8(a: uint8, b: uint8): uint8 {
    ((a as bv8) & (b as bv8)) as int
  }

  function Or8(a: uint8, b: uint8): uint8 {
    ((a as bv8) | (b as bv8)) as int
  }

  function Xor8(a: uint8, b: uint8): uint8 {
    ((a as bv8) ^ (b as bv8)) as int
  }

  function Not8(a: uint8): uint8 {
    0xFF - a
  }

  /** The complement is `a ^ 0xFF`. */
  lemma Not8IsXor(a: uint8)
    ensures Not8(a) == Xor8(a, 0xFF)
  {
    BitsOfByte(a);
    BitsOfByte(0xFF);
    ComplementBits(a as bv8);
  }

  lemma ComplementBits(x: bv8)
    ensures (x ^ 0xFF) as int == 0xFF - x as int
  {
  }

  predicate Bit7(b: uint8) {
    b >= 0x80
  }

  /** `1 << bit`. */
  function BitMask(bit: nat): uint8
    requires bit < 8
  {
    match bit
    case 0 => 1 case 1 => 2 case 2 => 4 case 3 => 8
    case 4 => 16 case 5 => 32 case 6 => 64 case _ => 128
  }
}
