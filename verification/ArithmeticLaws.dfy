/** Sums, differences and comparisons by value: result and every flag, in both modes and on both variants. */
module ArithmeticLaws {
  import opened Types
  import opened StatusRegister
  import opened MachineState
  import opened Arithmetic

  /** I, D, B and U are the same. */
  predicate KeepsControlFlags(p: Status, q: Status) {
    q.i == p.i && q.d == p.d && q.b == p.b && q.u == p.u
  }

  /** N and Z tell the sign and the zero of a byte. */
  predicate TellsValue(p: Status, byte: int) {
    (p.z <==> byte == 0) && (p.n <==> byte >= 0x80)
  }

  lemma SetZnTells(p: Status, byte: uint8)
    ensures TellsValue(SetZN(p, byte), byte)
  {
  }

  lemma BinarySum(variant: Variant, a: uint8, v: uint8, p: Status)
    requires !p.d
    ensures var r, sum := Adc(variant, a, v, p), a + v + Carry(p);
            && r.a == sum % 0x100 && (r.p.c <==> sum >= 0x100) && TellsValue(r.p, sum % 0x100)
            && (r.p.v <==> !(-0x80 <= Signed8(a) + Signed8(v) + Carry(p) < 0x80)) && KeepsControlFlags(p, r.p)
  {
  }

  lemma BinaryDifference(variant: Variant, a: uint8, v: uint8, p: Status)
    requires !p.d
    ensures var r, difference := Sbc(variant, a, v, p), a - v - (1 - Carry(p));
            && r.a == difference % 0x100 && (r.p.c <==> difference >= 0) && TellsValue(r.p, difference % 0x100)
            && (r.p.v <==> !(-0x80 <= Signed8(a) - Signed8(v) - (1 - Carry(p)) < 0x80)) && KeepsControlFlags(p, r.p)
  {
  }

  /** Decimal ADC on NMOS: N, Z and V are those of the binary sum. */
  lemma DecimalSumFlagsNmos(a: uint8, v: uint8, p: Status)
    ensures var q, binary := Adc(NMOS, a, v, p).p, Adc(NMOS, a, v, p.(d := false)).p;
            q.n == binary.n && q.z == binary.z && q.v == binary.v && KeepsControlFlags(p, q)
  {
    hide AddLowDigit, AddHighDigit, AddOverflows, Low8, Bit7;
  }

  /** Decimal ADC on CMOS: N and Z tell the adjusted A, V is that of the binary sum. */
  lemma DecimalSumFlagsCmos(a: uint8, v: uint8, p: Status)
    ensures var r := Adc(CMOS, a, v, p);
            TellsValue(r.p, r.a) && r.p.v == Adc(NMOS, a, v, p).p.v && KeepsControlFlags(p, r.p)
  {
    hide AddLowDigit, AddHighDigit, AddOverflows, Low8;
  }

  /** Decimal SBC on NMOS: N, Z, V and C are those of the binary difference. */
  lemma DecimalDifferenceFlagsNmos(a: uint8, v: uint8, p: Status)
    ensures var q, binary := Sbc(NMOS, a, v, p).p, Sbc(NMOS, a, v, p.(d := false)).p;
            q.n == binary.n && q.z == binary.z && q.v == binary.v && q.c == binary.c && KeepsControlFlags(p, q)
  {
    hide SubtractLowDigit, SubtractHighDigit, SubtractOverflows, Low8, Bit7, Not8;
  }

  /** Decimal SBC on CMOS: N and Z tell the adjusted A, V and C are those of the binary difference. */
  lemma DecimalDifferenceFlagsCmos(a: uint8, v: uint8, p: Status)
    ensures var r, q := Sbc(CMOS, a, v, p), Sbc(NMOS, a, v, p).p;
            TellsValue(r.p, r.a) && r.p.v == q.v && r.p.c == q.c && KeepsControlFlags(p, r.p)
  {
    hide SubtractLowDigit, SubtractHighDigit, SubtractOverflows, Low8, Not8;
  }

  /** A and C are the same on both variants. */
  lemma VariantsShareResult(a: uint8, v: uint8, p: Status)
    ensures Adc(NMOS, a, v, p).a == Adc(CMOS, a, v, p).a && Adc(NMOS, a, v, p).p.c == Adc(CMOS, a, v, p).p.c
    ensures Sbc(NMOS, a, v, p).a == Sbc(CMOS, a, v, p).a && Sbc(NMOS, a, v, p).p.c == Sbc(CMOS, a, v, p).p.c
  {
    hide AddLowDigit, AddHighDigit, AddOverflows, SubtractLowDigit, SubtractHighDigit, SubtractOverflows, Low8, Bit7, Not8;
  }

  /** A digit sum, up to 31 when digits are not decimal, brought back to one digit. */
  function DigitOfSum(sum: int): int {
    if sum < 10 then sum else if sum < 26 then sum - 10 else sum - 26
  }

  /** A digit difference, down to -16, brought back to one digit. */
  function DigitOfDifference(difference: int): int {
    if difference >= 0 then difference else if difference >= -10 then difference + 10 else difference + 26
  }

  lemma LowDigitOfSum(a: uint8, v: uint8, carry: nat)
    requires carry < 2
    ensures var low, (digit, out) := a % 0x10 + v % 0x10 + carry, AddLowDigit(a, v, carry);
            digit == DigitOfSum(low) && 0 <= digit < 0x10 && out == if low >= 10 then 1 else 0
  {
  }

  lemma HighDigitOfSum(a: uint8, v: uint8, carry: nat)
    requires carry < 2
    ensures var high, ah := a / 0x10 + v / 0x10 + carry, AddHighDigit(a, v, carry);
            ah % 0x10 == DigitOfSum(high) && (ah >= 0x10 <==> high >= 10)
  {
  }

  /** Decimal ADC digit by digit, for any bytes: each sum of ten or more carries. */
  lemma DecimalSumDigits(variant: Variant, a: uint8, v: uint8, p: Status)
    requires p.d
    ensures var r, low := Adc(variant, a, v, p), a % 0x10 + v % 0x10 + Carry(p);
            var high := a / 0x10 + v / 0x10 + if low >= 10 then 1 else 0;
            r.a == 0x10 * DigitOfSum(high) + DigitOfSum(low) && (r.p.c <==> high >= 10)
  {
    hide AddOverflows, Bit7, Low8, AddLowDigit, AddHighDigit, DigitOfSum;
    LowDigitOfSum(a, v, Carry(p));
    HighDigitOfSum(a, v, AddLowDigit(a, v, Carry(p)).1);
  }

  lemma LowDigitOfDifference(a: uint8, v: uint8, carry: nat)
    requires carry < 2
    ensures var low, (digit, out) := a % 0x10 - v % 0x10 - (1 - carry), SubtractLowDigit(a, v, carry);
            digit == DigitOfDifference(low) && 0 <= digit < 0x10 && out == if low < 0 then 1 else 0
  {
  }

  lemma HighDigitOfDifference(a: uint8, v: uint8, borrow: nat)
    requires borrow < 2
    ensures SubtractHighDigit(a, v, borrow) == DigitOfDifference(a / 0x10 - v / 0x10 - borrow)
    ensures 0 <= SubtractHighDigit(a, v, borrow) < 0x10
  {
  }

  /** Decimal SBC digit by digit, for any bytes: each negative difference borrows. */
  lemma DecimalDifferenceDigits(variant: Variant, a: uint8, v: uint8, p: Status)
    requires p.d
    ensures var r, low := Sbc(variant, a, v, p), a % 0x10 - v % 0x10 - (1 - Carry(p));
            var high := a / 0x10 - v / 0x10 - if low < 0 then 1 else 0;
            r.a == 0x10 * DigitOfDifference(high) + DigitOfDifference(low)
  {
    hide SubtractOverflows, Bit7, Low8, Not8, SubtractLowDigit, SubtractHighDigit, DigitOfDifference;
    LowDigitOfDifference(a, v, Carry(p));
    HighDigitOfDifference(a, v, SubtractLowDigit(a, v, Carry(p)).1);
  }

  /** The whole result of decimal ADC by value. */
  lemma DecimalSum(variant: Variant, a: uint8, v: uint8, p: Status)
    requires p.d
    ensures var r, low := Adc(variant, a, v, p), a % 0x10 + v % 0x10 + Carry(p);
            var high := a / 0x10 + v / 0x10 + if low >= 10 then 1 else 0;
            && r.a == 0x10 * DigitOfSum(high) + DigitOfSum(low) && (r.p.c <==> high >= 10)
            && TellsValue(r.p, if variant == NMOS then (a + v + Carry(p)) % 0x100 else r.a)
            && (r.p.v <==> !(-0x80 <= Signed8(a) + Signed8(v) + Carry(p) < 0x80)) && KeepsControlFlags(p, r.p)
  {
    hide Adc, Signed8;
    BinarySum(NMOS, a, v, p.(d := false));
    DecimalSumFlagsNmos(a, v, p);
    DecimalSumFlagsCmos(a, v, p);
    DecimalSumDigits(variant, a, v, p);
  }

  /** The whole result of decimal SBC by value. */
  lemma DecimalDifference(variant: Variant, a: uint8, v: uint8, p: Status)
    requires p.d
    ensures var r, low := Sbc(variant, a, v, p), a % 0x10 - v % 0x10 - (1 - Carry(p));
            var high := a / 0x10 - v / 0x10 - if low < 0 then 1 else 0;
            && r.a == 0x10 * DigitOfDifference(high) + DigitOfDifference(low) && (r.p.c <==> a - v - (1 - Carry(p)) >= 0)
            && TellsValue(r.p, if variant == NMOS then (a - v - (1 - Carry(p))) % 0x100 else r.a)
            && (r.p.v <==> !(-0x80 <= Signed8(a) - Signed8(v) - (1 - Carry(p)) < 0x80)) && KeepsControlFlags(p, r.p)
  {
    hide Sbc, Signed8;
    BinaryDifference(NMOS, a, v, p.(d := false));
    DecimalDifferenceFlagsNmos(a, v, p);
    DecimalDifferenceFlagsCmos(a, v, p);
    DecimalDifferenceDigits(variant, a, v, p);
  }

  /** A comparison leaves C, Z and N of the difference and nothing else. */
  lemma Comparison(p: Status, register: uint8, v: uint8)
    ensures var q := CompareFlags(p, register, v);
            && (q.c <==> register >= v) && (q.z <==> register == v) && (q.n <==> (register - v) % 0x100 >= 0x80)
            && q.v == p.v && KeepsControlFlags(p, q)
  {
  }
}
