/** Multi-byte packed-decimal addition and subtraction, and the subtraction that undoes an addition. */
module MultiByteDecimal {
  import opened Types
  import opened StatusRegister
  import opened MachineState
  import opened Arithmetic
  import opened MultiByte

  predicate IsBcd(b: uint8) {
    b / 0x10 < 10 && b % 0x10 < 10
  }

  function BcdValue(b: uint8): nat {
    10 * (b / 0x10) + b % 0x10
  }

  predicate AllBcd(xs: seq<uint8>) {
    forall i :: 0 <= i < |xs| ==> IsBcd(xs[i])
  }

  function Decimal(xs: seq<uint8>): nat {
    if xs == [] then 0 else BcdValue(xs[0]) + 100 * Decimal(xs[1..])
  }

  lemma LowDigitSum(x: uint8, y: uint8, c: nat)
    requires x % 0x10 < 10 && y % 0x10 < 10 && c < 2
    ensures var (al, k) := AddLowDigit(x, y, c); al < 10 && k < 2 && al + 10 * k == x % 0x10 + y % 0x10 + c
  {
    var xl, yl := x % 0x10, y % 0x10;
    assert xl + yl + c >= 10 ==> (xl + yl + c + 6) % 0x10 == xl + yl + c - 10;
  }

  lemma HighDigitSum(x: uint8, y: uint8, k: nat)
    requires x / 0x10 < 10 && y / 0x10 < 10 && k < 2
    ensures var ah := AddHighDigit(x, y, k);
            ah % 0x10 < 10 && ah % 0x10 + 10 * Weight(ah >= 0x10, 1) == x / 0x10 + y / 0x10 + k
  {
    var sum := x / 0x10 + y / 0x10 + k;
    assert sum >= 10 ==> (sum + 6) % 0x10 == sum - 10;
  }

  lemma Packed(h: nat, l: nat)
    requires h < 10 && l < 10
    ensures IsBcd(0x10 * h + l) && BcdValue(0x10 * h + l) == 10 * h + l
  {
    assert (0x10 * h + l) / 0x10 == h && (0x10 * h + l) % 0x10 == l;
  }

  lemma AddDigits(variant: Variant, x: uint8, y: uint8, p: Status)
    requires p.d && IsBcd(x) && IsBcd(y)
    ensures var alu := Adc(variant, x, y, p);
            && alu.p.d && IsBcd(alu.a)
            && BcdValue(alu.a) + 100 * Carry(alu.p) == BcdValue(x) + BcdValue(y) + Carry(p)
  {
    hide AddOverflows, AddLowDigit, AddHighDigit, Low8, Bit7;
    var (al, k) := AddLowDigit(x, y, Carry(p));
    LowDigitSum(x, y, Carry(p));
    HighDigitSum(x, y, k);
    Packed(AddHighDigit(x, y, k) % 0x10, al);
  }

  lemma LowDigitDifference(x: uint8, y: uint8, c: nat)
    requires x % 0x10 < 10 && y % 0x10 < 10 && c < 2
    ensures var (al, k) := SubtractLowDigit(x, y, c); 0 <= al < 10 && k < 2 && al - 10 * k == x % 0x10 - y % 0x10 - (1 - c)
  {
    var d := x % 0x10 - y % 0x10 - (1 - c);
    assert d < 0 ==> (d - 6) % 0x10 == d + 10;
  }

  lemma HighDigitDifference(x: uint8, y: uint8, k: nat)
    requires x / 0x10 < 10 && y / 0x10 < 10 && k < 2
    ensures var ah := SubtractHighDigit(x, y, k);
            0 <= ah < 10 && ah - 10 * Weight(x / 0x10 - y / 0x10 - k < 0, 1) == x / 0x10 - y / 0x10 - k
  {
    var d := x / 0x10 - y / 0x10 - k;
    assert d < 0 ==> (d - 6) % 0x10 == d + 10;
  }

  /** On packed digits the binary carry is the decimal one. */
  lemma NoBorrow(x: uint8, y: uint8, c: nat, k: nat)
    requires c < 2 && k == Weight(x % 0x10 - y % 0x10 - (1 - c) < 0, 1)
    ensures x + Not8(y) + c > 0xFF <==> x / 0x10 - y / 0x10 - k >= 0
  {
    var xh, xl, yh, yl := x / 0x10, x % 0x10, y / 0x10, y % 0x10;
    assert x == 0x10 * xh + xl && y == 0x10 * yh + yl;
  }

  lemma SubtractDigits(variant: Variant, x: uint8, y: uint8, p: Status)
    requires p.d && IsBcd(x) && IsBcd(y)
    ensures var alu := Sbc(variant, x, y, p);
            && alu.p.d && IsBcd(alu.a)
            && BcdValue(alu.a) == BcdValue(x) - BcdValue(y) - (1 - Carry(p)) + 100 * (1 - Carry(alu.p))
  {
    hide SubtractOverflows, SubtractLowDigit, SubtractHighDigit, Low8, Bit7, Not8;
    var (al, k) := SubtractLowDigit(x, y, Carry(p));
    LowDigitDifference(x, y, Carry(p));
    HighDigitDifference(x, y, k);
    NoBorrow(x, y, Carry(p), k);
    Packed(SubtractHighDigit(x, y, k), al);
  }

  lemma DecimalCons(b: uint8, bytes: seq<uint8>)
    ensures Decimal([b] + bytes) == BcdValue(b) + 100 * Decimal(bytes)
  {
    assert ([b] + bytes)[1..] == bytes;
  }

  lemma LoadKeepsCarry(p: Status, x: uint8)
    ensures SetZN(p, x).d == p.d && Carry(SetZN(p, x)) == Carry(p)
  {
  }

  /** Packed-decimal addition: valid digits, and the exact sum with the carry-out worth 100^n. */
  lemma {:induction false} DecimalAddition(variant: Variant, xs: seq<uint8>, ys: seq<uint8>, p: Status)
    requires |xs| == |ys| && p.d && AllBcd(xs) && AllBcd(ys)
    ensures var r := AddChain(variant, xs, ys, p);
            && AllBcd(r.bytes) && |r.bytes| == |xs| && r.p.d
            && Decimal(r.bytes) + Power(100, |xs|) * Carry(r.p) == Decimal(xs) + Decimal(ys) + Carry(p)
    decreases xs
  {
    hide Adc, IsBcd, BcdValue, SetZN, Carry;
    if xs != [] {
      var q := SetZN(p, xs[0]);
      LoadKeepsCarry(p, xs[0]);
      var alu := Adc(variant, xs[0], ys[0], q);
      var rest := AddChain(variant, xs[1..], ys[1..], alu.p);
      AddDigits(variant, xs[0], ys[0], q);
      DecimalAddition(variant, xs[1..], ys[1..], alu.p);
      DecimalCons(alu.a, rest.bytes);
      PowerStep(100, |xs|, Carry(rest.p));
    }
  }

  /** Packed-decimal subtraction: valid digits, and the exact difference with a borrow worth 100^n. */
  lemma {:induction false} DecimalSubtraction(variant: Variant, xs: seq<uint8>, ys: seq<uint8>, p: Status)
    requires |xs| == |ys| && p.d && AllBcd(xs) && AllBcd(ys)
    ensures var r := SubtractChain(variant, xs, ys, p);
            && AllBcd(r.bytes) && |r.bytes| == |xs| && r.p.d
            && Decimal(r.bytes) == Decimal(xs) - Decimal(ys) - (1 - Carry(p)) + Power(100, |xs|) * (1 - Carry(r.p))
    decreases xs
  {
    hide Sbc, IsBcd, BcdValue, SetZN, Carry;
    if xs != [] {
      var q := SetZN(p, xs[0]);
      LoadKeepsCarry(p, xs[0]);
      var alu := Sbc(variant, xs[0], ys[0], q);
      var rest := SubtractChain(variant, xs[1..], ys[1..], alu.p);
      SubtractDigits(variant, xs[0], ys[0], q);
      DecimalSubtraction(variant, xs[1..], ys[1..], alu.p);
      DecimalCons(alu.a, rest.bytes);
      PowerStep(100, |xs|, 1 - Carry(rest.p));
    }
  }

  lemma {:induction false} DecimalBelowPower(xs: seq<uint8>)
    requires AllBcd(xs)
    ensures Decimal(xs) < Power(100, |xs|)
    decreases xs
  {
    if xs != [] {
      DecimalBelowPower(xs[1..]);
      assert BcdValue(xs[0]) < 100;
    }
  }

  lemma {:induction false} DecimalInjective(xs: seq<uint8>, ys: seq<uint8>)
    requires |xs| == |ys| && AllBcd(xs) && AllBcd(ys) && Decimal(xs) == Decimal(ys)
    ensures xs == ys
    decreases xs
  {
    if xs != [] {
      HundredsApart(BcdValue(xs[0]), BcdValue(ys[0]), Decimal(xs[1..]), Decimal(ys[1..]));
      DigitsInjective(xs[0], ys[0]);
      DecimalInjective(xs[1..], ys[1..]);
      assert xs == [xs[0]] + xs[1..] && ys == [ys[0]] + ys[1..];
    }
  }

  lemma HundredsApart(x: nat, y: nat, high: nat, high': nat)
    requires x < 100 && y < 100 && x + 100 * high == y + 100 * high'
    ensures x == y && high == high'
  {
  }

  lemma DigitsInjective(x: uint8, y: uint8)
    requires IsBcd(x) && IsBcd(y) && BcdValue(x) == BcdValue(y)
    ensures x == y
  {
    assert x == 0x10 * (x / 0x10) + x % 0x10 && y == 0x10 * (y / 0x10) + y % 0x10;
  }

  /** Subtracting what was added, with the opposite carry-in, gives the first operand back and the opposite
      carry-out. */
  lemma SubtractionUndoesAddition(variant: Variant, xs: seq<uint8>, ys: seq<uint8>, p: Status, q: Status)
    requires |xs| == |ys| && p.d && q.d && q.c == !p.c && AllBcd(xs) && AllBcd(ys)
    ensures |AddChain(variant, xs, ys, p).bytes| == |ys|
    ensures var sum := AddChain(variant, xs, ys, p);
            var back := SubtractChain(variant, sum.bytes, ys, q);
            back.bytes == xs && back.p.c == !sum.p.c
  {
    hide AddChain, SubtractChain, Decimal, AllBcd, Power;
    DecimalAddition(variant, xs, ys, p);
    var sum := AddChain(variant, xs, ys, p);
    DecimalSubtraction(variant, sum.bytes, ys, q);
    var back := SubtractChain(variant, sum.bytes, ys, q);
    DecimalBelowPower(xs);
    DecimalBelowPower(back.bytes);
    CarriesCancel(Decimal(xs), Decimal(back.bytes), Power(100, |xs|), sum.p.c, back.p.c);
    DecimalInjective(back.bytes, xs);
  }

  lemma CarriesCancel(x: nat, back: nat, power: nat, out: bool, end: bool)
    requires x < power && back < power
    requires back == x - power * Weight(out, 1) + power * (1 - Weight(end, 1))
    ensures end == !out && back == x
  {
  }
}
