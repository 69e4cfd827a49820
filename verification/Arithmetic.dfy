/** ADC and SBC on the accumulator and the flags, and the shifts they are chained with. */
module Arithmetic {
  import opened Types
  import opened StatusRegister
  import opened MachineState

  datatype AluResult = AluResult(a: uint8, p: Status)

  /** Bit 7 of `~(a ^ v) & (a ^ sum)`. */
  predicate AddOverflows(a: uint8, v: uint8, sum: nat) {
    Bit7(a) == Bit7(v) && Bit7(a) != Bit7(Low8(sum))
  }

  /** Bit 7 of `(a ^ v) & (a ^ difference)`. */
  predicate SubtractOverflows(a: uint8, v: uint8, difference: nat) {
    Bit7(a) != Bit7(v) && Bit7(a) != Bit7(Low8(difference))
  }

  lemma SignBit(a: uint8)
    ensures (a as bv8) >= 0x80 <==> Bit7(a)
  {
    BitsOfByte(a);
    var x := a as bv8;
    assert x >= 0x80 <==> x as int >= 0x80;
  }

  lemma MaskBits(a: bv8, v: bv8, s: bv8)
    ensures !(a ^ v) & (a ^ s) & 0x80 != 0 <==> (a >= 0x80) == (v >= 0x80) && (a >= 0x80) != (s >= 0x80)
    ensures (a ^ v) & (a ^ s) & 0x80 != 0 <==> (a >= 0x80) != (v >= 0x80) && (a >= 0x80) != (s >= 0x80)
  {
  }

  /** The two sign tests are the bit masks of the V flag. */
  lemma OverflowMasks(a: uint8, v: uint8, sum: nat)
    ensures var (x, y, s) := (a as bv8, v as bv8, Low8(sum) as bv8);
            (AddOverflows(a, v, sum) <==> !(x ^ y) & (x ^ s) & 0x80 != 0) &&
            (SubtractOverflows(a, v, sum) <==> (x ^ y) & (x ^ s) & 0x80 != 0)
  {
    hide Bit7, Low8;
    SignBit(a);
    SignBit(v);
    SignBit(Low8(sum));
    MaskBits(a as bv8, v as bv8, Low8(sum) as bv8);
  }

  function AddBinary(a: uint8, v: uint8, p: Status): AluResult {
    var sum := a + v + Carry(p);
    AluResult(Low8(sum), SetZN(p.(c := sum > 0xFF, v := AddOverflows(a, v, sum)), Low8(sum)))
  }

  /** Low digit after adjustment, and whether it carries into the high digit. */
  function AddLowDigit(a: uint8, v: uint8, carry: nat): (nat, nat) {
    var al := a % 0x10 + v % 0x10 + carry;
    if al >= 0x0A then ((al + 0x06) % 0x10, 1) else (al, 0)
  }

  function AddHighDigit(a: uint8, v: uint8, carry: nat): nat {
    var ah := a / 0x10 + v / 0x10 + carry;
    if ah >= 0x0A then ah + 0x06 else ah
  }

  function AddDecimal(variant: Variant, a: uint8, v: uint8, p: Status): AluResult {
    var binary := a + v + Carry(p);
    var (al, carry) := AddLowDigit(a, v, Carry(p));
    var ah := AddHighDigit(a, v, carry);
    var result := (ah % 0x10) * 0x10 + al % 0x10;
    var zn := if variant == CMOS then result else Low8(binary);
    AluResult(result, SetZN(p.(c := ah >= 0x10), zn).(v := AddOverflows(a, v, binary)))
  }

  function Adc(variant: Variant, a: uint8, v: uint8, p: Status): AluResult {
    if p.d then AddDecimal(variant, a, v, p) else AddBinary(a, v, p)
  }

  function SubtractBinary(a: uint8, v: uint8, p: Status): AluResult {
    var sub := a + Not8(v) + Carry(p);
    AluResult(Low8(sub), SetZN(p.(c := sub > 0xFF, v := SubtractOverflows(a, v, sub)), Low8(sub)))
  }

  /** Low digit after adjustment, and what it borrows from the high digit. */
  function SubtractLowDigit(a: uint8, v: uint8, carry: nat): (int, nat) {
    var al := a % 0x10 - v % 0x10 - (if carry != 0 then 0 else 1);
    if al < 0 then ((al - 0x06) % 0x10, 1) else (al, 0)
  }

  function SubtractHighDigit(a: uint8, v: uint8, borrow: nat): int {
    var ah := a / 0x10 - v / 0x10 - borrow;
    if ah < 0 then (ah - 0x06) % 0x10 else ah
  }

  function SubtractDecimal(variant: Variant, a: uint8, v: uint8, p: Status): AluResult {
    var binary := a + Not8(v) + Carry(p);
    var (al, borrow) := SubtractLowDigit(a, v, Carry(p));
    var ah := SubtractHighDigit(a, v, borrow);
    var result := (ah % 0x10) * 0x10 + al % 0x10;
    var zn := if variant == CMOS then result else Low8(binary);
    AluResult(result, SetZN(p.(c := binary > 0xFF), zn).(v := SubtractOverflows(a, v, binary)))
  }

  function Sbc(variant: Variant, a: uint8, v: uint8, p: Status): AluResult {
    if p.d then SubtractDecimal(variant, a, v, p) else SubtractBinary(a, v, p)
  }

  /** A shifted or rotated byte with the carry that falls out of it. */
  datatype Shifted = Shifted(value: uint8, carry: bool)

  datatype Direction = Left | Right

  function Shift(direction: Direction, value: uint8, carryIn: nat): Shifted
    requires carryIn < 2
  {
    match direction
    case Left => Shifted(Low8(2 * value) + carryIn, Bit7(value))
    case Right => Shifted(value / 2 + 0x80 * carryIn, value % 2 == 1)
  }

  /** C from the bit shifted out, Z and N from the result. */
  function ShiftFlags(p: Status, s: Shifted): Status {
    SetZN(p.(c := s.carry), s.value)
  }

  /** C set iff no borrow, Z and N from the difference. */
  function CompareFlags(p: Status, register: uint8, v: uint8): Status {
    SetZN(p.(c := register >= v), Low8(register - v))
  }
}
