/** Multi-byte addition, subtraction and rotation with the carry threaded through the bytes, low byte first. */
module MultiByte {
  import opened Types
  import opened StatusRegister
  import opened MachineState
  import opened Arithmetic
  import opened Instructions

  function Power(base: nat, n: nat): nat {
    if n == 0 then 1 else base * Power(base, n - 1)
  }

  function Value(xs: seq<uint8>): nat {
    if xs == [] then 0 else xs[0] + 0x100 * Value(xs[1..])
  }

  /** Two's-complement value of a nonempty number. */
  function Signed(xs: seq<uint8>): int
    requires xs != []
  {
    if |xs| == 1 then Signed8(xs[0]) else xs[0] + 0x100 * Signed(xs[1..])
  }

  datatype Chained = Chained(bytes: seq<uint8>, p: Status)

  /** LDA x; ADC y for every byte, the carry running upwards. */
  function AddChain(variant: Variant, xs: seq<uint8>, ys: seq<uint8>, p: Status): Chained
    requires |xs| == |ys|
  {
    if xs == [] then Chained([], p)
    else
      var alu := Adc(variant, xs[0], ys[0], SetZN(p, xs[0]));
      var rest := AddChain(variant, xs[1..], ys[1..], alu.p);
      Chained([alu.a] + rest.bytes, rest.p)
  }

  /** LDA x; SBC y for every byte. */
  function SubtractChain(variant: Variant, xs: seq<uint8>, ys: seq<uint8>, p: Status): Chained
    requires |xs| == |ys|
  {
    if xs == [] then Chained([], p)
    else
      var alu := Sbc(variant, xs[0], ys[0], SetZN(p, xs[0]));
      var rest := SubtractChain(variant, xs[1..], ys[1..], alu.p);
      Chained([alu.a] + rest.bytes, rest.p)
  }

  lemma AddByte(variant: Variant, x: uint8, y: uint8, p: Status)
    requires !p.d
    ensures var alu := Adc(variant, x, y, p); !alu.p.d && alu.a + 0x100 * Carry(alu.p) == x + y + Carry(p)
  {
    hide AddOverflows;
  }

  lemma SubtractByte(variant: Variant, x: uint8, y: uint8, p: Status)
    requires !p.d
    ensures var alu := Sbc(variant, x, y, p);
            !alu.p.d && alu.a == x - y - (1 - Carry(p)) + 0x100 * (1 - Carry(alu.p))
  {
    hide SubtractOverflows;
  }

  lemma PowerStep(base: nat, n: nat, k: int)
    requires n > 0
    ensures Power(base, n) * k == base * (Power(base, n - 1) * k)
  {
  }

  lemma ValueCons(b: uint8, bytes: seq<uint8>)
    ensures Value([b] + bytes) == b + 0x100 * Value(bytes)
  {
    assert ([b] + bytes)[1..] == bytes;
  }

  /** The chain computes the exact n-byte sum, its carry-out worth 256^n. */
  lemma {:induction false} BinaryAddition(variant: Variant, xs: seq<uint8>, ys: seq<uint8>, p: Status)
    requires |xs| == |ys| && !p.d
    ensures var r := AddChain(variant, xs, ys, p);
            && |r.bytes| == |xs| && !r.p.d
            && Value(r.bytes) + Power(0x100, |xs|) * Carry(r.p) == Value(xs) + Value(ys) + Carry(p)
    decreases xs
  {
    hide Adc;
    if xs != [] {
      var q := SetZN(p, xs[0]);
      var alu := Adc(variant, xs[0], ys[0], q);
      var rest := AddChain(variant, xs[1..], ys[1..], alu.p);
      AddByte(variant, xs[0], ys[0], q);
      BinaryAddition(variant, xs[1..], ys[1..], alu.p);
      ValueCons(alu.a, rest.bytes);
      PowerStep(0x100, |xs|, Carry(rest.p));
    }
  }

  /** The chain computes the exact n-byte difference, a missing carry-out standing for a borrow of 256^n. */
  lemma {:induction false} BinarySubtraction(variant: Variant, xs: seq<uint8>, ys: seq<uint8>, p: Status)
    requires |xs| == |ys| && !p.d
    ensures var r := SubtractChain(variant, xs, ys, p);
            && |r.bytes| == |xs| && !r.p.d
            && Value(r.bytes) == Value(xs) - Value(ys) - (1 - Carry(p)) + Power(0x100, |xs|) * (1 - Carry(r.p))
    decreases xs
  {
    hide Sbc;
    if xs != [] {
      var q := SetZN(p, xs[0]);
      var alu := Sbc(variant, xs[0], ys[0], q);
      var rest := SubtractChain(variant, xs[1..], ys[1..], alu.p);
      SubtractByte(variant, xs[0], ys[0], q);
      BinarySubtraction(variant, xs[1..], ys[1..], alu.p);
      ValueCons(alu.a, rest.bytes);
      PowerStep(0x100, |xs|, 1 - Carry(rest.p));
    }
  }

  /** `value` fits in n bytes of two's complement. */
  predicate Fits(value: int, n: nat)
    requires n > 0
  {
    -0x80 * Power(0x100, n - 1) <= value < 0x80 * Power(0x100, n - 1)
  }

  lemma AddOverflowByte(variant: Variant, x: uint8, y: uint8, p: Status)
    requires !p.d
    ensures Adc(variant, x, y, p).p.v <==> !(-0x80 <= Signed8(x) + Signed8(y) + Carry(p) < 0x80)
  {
  }

  lemma SubtractOverflowByte(variant: Variant, x: uint8, y: uint8, p: Status)
    requires !p.d
    ensures Sbc(variant, x, y, p).p.v <==> !(-0x80 <= Signed8(x) - Signed8(y) - (1 - Carry(p)) < 0x80)
  {
  }

  /** A low byte below a number that fits keeps it fitting, and the other way round. */
  lemma FitsAbove(low: uint8, high: int, n: nat)
    requires n > 0
    ensures Fits(low + 0x100 * high, n + 1) <==> Fits(high, n)
  {
    var bound := Power(0x100, n - 1);
    assert Power(0x100, n) == 0x100 * bound;
  }

  /** V after the last byte is set iff the signed n-byte sum does not fit. */
  lemma {:induction false} SignedOverflowOfSum(variant: Variant, xs: seq<uint8>, ys: seq<uint8>, p: Status)
    requires |xs| == |ys| > 0 && !p.d
    ensures AddChain(variant, xs, ys, p).p.v <==> !Fits(Signed(xs) + Signed(ys) + Carry(p), |xs|)
    decreases xs
  {
    hide Adc;
    var q := SetZN(p, xs[0]);
    var alu := Adc(variant, xs[0], ys[0], q);
    AddByte(variant, xs[0], ys[0], q);
    if |xs| == 1 {
      AddOverflowByte(variant, xs[0], ys[0], q);
      assert Power(0x100, 0) == 1;
      assert AddChain(variant, xs[1..], ys[1..], alu.p) == Chained([], alu.p);
    } else {
      SignedOverflowOfSum(variant, xs[1..], ys[1..], alu.p);
      FitsAbove(alu.a, Signed(xs[1..]) + Signed(ys[1..]) + Carry(alu.p), |xs| - 1);
    }
  }

  /** V after the last byte is set iff the signed n-byte difference does not fit. */
  lemma {:induction false} SignedOverflowOfDifference(variant: Variant, xs: seq<uint8>, ys: seq<uint8>, p: Status)
    requires |xs| == |ys| > 0 && !p.d
    ensures SubtractChain(variant, xs, ys, p).p.v <==> !Fits(Signed(xs) - Signed(ys) - (1 - Carry(p)), |xs|)
    decreases xs
  {
    hide Sbc;
    var q := SetZN(p, xs[0]);
    var alu := Sbc(variant, xs[0], ys[0], q);
    SubtractByte(variant, xs[0], ys[0], q);
    if |xs| == 1 {
      SubtractOverflowByte(variant, xs[0], ys[0], q);
      assert Power(0x100, 0) == 1;
      assert SubtractChain(variant, xs[1..], ys[1..], alu.p) == Chained([], alu.p);
    } else {
      SignedOverflowOfDifference(variant, xs[1..], ys[1..], alu.p);
      FitsAbove(alu.a, Signed(xs[1..]) - Signed(ys[1..]) - (1 - Carry(alu.p)), |xs| - 1);
    }
  }

  /** Binary SBC is ADC of the complement, on A and every flag. */
  lemma SubtractIsAddComplement(variant: Variant, a: uint8, v: uint8, p: Status)
    requires !p.d
    ensures Sbc(variant, a, v, p) == Adc(variant, a, Xor8(v, 0xFF), p)
  {
    hide Xor8;
    Not8IsXor(v);
  }

  /** ROL every byte, low to high. */
  function RotateUp(xs: seq<uint8>, p: Status): Chained {
    if xs == [] then Chained([], p)
    else
      var s := ShiftResult(ROL, p, xs[0]);
      var rest := RotateUp(xs[1..], ShiftFlags(p, s));
      Chained([s.value] + rest.bytes, rest.p)
  }

  /** ROR every byte, high to low. */
  function RotateDown(xs: seq<uint8>, p: Status): Chained {
    if xs == [] then Chained([], p)
    else
      var rest := RotateDown(xs[1..], p);
      var s := ShiftResult(ROR, rest.p, xs[0]);
      Chained([s.value] + rest.bytes, ShiftFlags(rest.p, s))
  }

  lemma RotateByte(x: uint8, p: Status, q: Status)
    requires q.c == ShiftResult(ROL, p, x).carry
    ensures var s := ShiftResult(ROR, q, ShiftResult(ROL, p, x).value); s.value == x && s.carry == p.c
  {
  }

  /** Rotating up and then down again gives back every byte and C. */
  lemma {:induction false} RotationRoundTrip(xs: seq<uint8>, p: Status)
    ensures var up := RotateUp(xs, p);
            var down := RotateDown(up.bytes, up.p);
            down.bytes == xs && down.p.c == p.c
    decreases xs
  {
    hide ShiftResult;
    if xs != [] {
      var s := ShiftResult(ROL, p, xs[0]);
      var rest := RotateUp(xs[1..], ShiftFlags(p, s));
      RotationRoundTrip(xs[1..], ShiftFlags(p, s));
      var down := RotateDown(rest.bytes, rest.p);
      assert ([s.value] + rest.bytes)[1..] == rest.bytes;
      RotateByte(xs[0], p, down.p);
    }
  }
}
