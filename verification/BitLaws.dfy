/** AND, OR, exclusive OR, complement and shifts bit by bit. */
module BitLaws {
  import opened Types
  import opened StatusBits

  /** Bit `i` of a bit vector. */
  predicate Has(x: bv8, i: nat)
    requires i < 8
  {
    match i
    case 0 => x & 1 != 0
    case 1 => x & 2 != 0
    case 2 => x & 4 != 0
    case 3 => x & 8 != 0
    case 4 => x & 16 != 0
    case 5 => x & 32 != 0
    case 6 => x & 64 != 0
    case _ => x & 128 != 0
  }

  lemma LowestBit(x: bv8)
    ensures Bit(x as int, 0) <==> Has(x, 0)
  {
  }

  lemma HalfBits(x: bv8)
    ensures (x >> 1) as int == x as int / 2
  {
  }

  lemma HalvesHave(x: bv8, i: nat)
    requires 0 < i < 8
    ensures Has(x, i) <==> Has(x >> 1, i - 1)
  {
    match i
    case 1 => case 2 => case 3 => case 4 => case 5 => case 6 => case _ =>
  }

  lemma HalvesBit(n: uint8, i: nat)
    requires 0 < i < 8
    ensures Bit(n, i) <==> Bit(n / 2, i - 1)
  {
  }

  lemma {:induction false} BitOfVector(x: bv8, i: nat)
    requires i < 8
    ensures Bit(x as int, i) <==> Has(x, i)
    decreases i
  {
    hide Bit, Has;
    if i == 0 {
      LowestBit(x);
    } else {
      BitOfVector(x >> 1, i - 1);
      HalfBits(x);
      HalvesHave(x, i);
      HalvesBit(x as int, i);
    }
  }

  lemma BitOfByte(a: uint8, i: nat)
    requires i < 8
    ensures Bit(a, i) <==> Has(a as bv8, i)
  {
    BitsOfByte(a);
    BitOfVector(a as bv8, i);
  }

  lemma VectorAnd(x: bv8, y: bv8, i: nat)
    requires i < 8
    ensures Has(x & y, i) <==> Has(x, i) && Has(y, i)
  {
    match i
    case 0 => case 1 => case 2 => case 3 => case 4 => case 5 => case 6 => case _ =>
  }

  lemma VectorOr(x: bv8, y: bv8, i: nat)
    requires i < 8
    ensures Has(x | y, i) <==> Has(x, i) || Has(y, i)
  {
    match i
    case 0 => case 1 => case 2 => case 3 => case 4 => case 5 => case 6 => case _ =>
  }

  lemma LowestXor(x: bv8, y: bv8)
    ensures Has(x ^ y, 0) <==> Has(x, 0) != Has(y, 0)
  {
    assert (x ^ y) & 1 == (x & 1) ^ (y & 1);
    assert x & 1 == 0 || x & 1 == 1;
    assert y & 1 == 0 || y & 1 == 1;
  }

  lemma HalfXor(x: bv8, y: bv8)
    ensures (x ^ y) >> 1 == (x >> 1) ^ (y >> 1)
  {
  }

  lemma {:induction false} VectorXor(x: bv8, y: bv8, i: nat)
    requires i < 8
    ensures Has(x ^ y, i) <==> Has(x, i) != Has(y, i)
    decreases i
  {
    hide Has;
    if i == 0 {
      LowestXor(x, y);
    } else {
      HalvesHave(x, i);
      HalvesHave(y, i);
      HalvesHave(x ^ y, i);
      HalfXor(x, y);
      VectorXor(x >> 1, y >> 1, i - 1);
    }
  }

  lemma AndBits(a: uint8, b: uint8, i: nat)
    requires i < 8
    ensures Bit(And8(a, b), i) <==> Bit(a, i) && Bit(b, i)
  {
    hide Bit, Has;
    var x, y := a as bv8, b as bv8;
    BitOfByte(a, i);
    BitOfByte(b, i);
    BitOfVector(x & y, i);
    VectorAnd(x, y, i);
  }

  lemma OrBits(a: uint8, b: uint8, i: nat)
    requires i < 8
    ensures Bit(Or8(a, b), i) <==> Bit(a, i) || Bit(b, i)
  {
    hide Bit, Has;
    var x, y := a as bv8, b as bv8;
    BitOfByte(a, i);
    BitOfByte(b, i);
    BitOfVector(x | y, i);
    VectorOr(x, y, i);
  }

  lemma XorBits(a: uint8, b: uint8, i: nat)
    requires i < 8
    ensures Bit(Xor8(a, b), i) <==> Bit(a, i) != Bit(b, i)
  {
    hide Bit, Has;
    var x, y := a as bv8, b as bv8;
    BitOfByte(a, i);
    BitOfByte(b, i);
    BitOfVector(x ^ y, i);
    VectorXor(x, y, i);
  }

  lemma AllOnes(i: nat)
    requires i < 8
    ensures Bit(0xFF, i)
  {
  }

  lemma NotBits(a: uint8, i: nat)
    requires i < 8
    ensures Bit(Not8(a), i) <==> !Bit(a, i)
  {
    hide Bit, Xor8;
    Not8IsXor(a);
    XorBits(a, 0xFF, i);
    AllOnes(i);
  }

  lemma BitOfMask(bit: nat, i: nat)
    requires bit < 8 && i < 8
    ensures Bit(BitMask(bit), i) <==> i == bit
  {
  }

  /** A byte is zero iff no bit is set. */
  lemma ZeroBits(x: uint8)
    ensures x == 0 <==> forall i :: 0 <= i < 8 ==> !Bit(x, i)
  {
    if forall i :: 0 <= i < 8 ==> !Bit(x, i) {
      assert !Bit(x, 0) && !Bit(x, 1) && !Bit(x, 2) && !Bit(x, 3) && !Bit(x, 4) && !Bit(x, 5) && !Bit(x, 6) && !Bit(x, 7);
    }
  }

  lemma MaskedIsZero(byte: uint8, bit: nat)
    requires bit < 8
    ensures And8(byte, BitMask(bit)) == 0 <==> !Bit(byte, bit)
  {
    hide Bit, And8, BitMask;
    ZeroBits(And8(byte, BitMask(bit)));
    forall i | 0 <= i < 8
      ensures Bit(And8(byte, BitMask(bit)), i) <==> i == bit && Bit(byte, bit)
    {
      AndBits(byte, BitMask(bit), i);
      BitOfMask(bit, i);
    }
    assert Bit(And8(byte, BitMask(bit)), bit) <==> Bit(byte, bit);
  }
}
