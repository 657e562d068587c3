/**
 The digit-serial ALU is integer arithmetic. A field is read as a little-endian
 number: digit 0 counts to 16, every other digit to 10, so a field of w decimal
 digits works modulo 10^w and the whole register modulo 16 * 10^15.
 */
module AluArithmetic {
  import opened Words
  import opened Alu

  /** The number held in positions lo..hi of a register. */
  function Value(s: Digits, lo: nat, hi: nat): nat
    requires lo <= hi <= 16
    decreases hi - lo
  {
    if lo == hi then 0 else s[lo] + Base(lo) * Value(s, lo + 1, hi)
  }

  /** How many numbers positions lo..hi can hold. */
  function Modulus(lo: nat, hi: nat): (r: nat)
    requires lo <= hi
    ensures r > 0
    decreases hi - lo
  {
    if lo == hi then 1 else Base(lo) * Modulus(lo + 1, hi)
  }

  function Pow10(n: nat): (r: nat)
    ensures r > 0
  {
    if n == 0 then 1 else 10 * Pow10(n - 1)
  }

  /** The field's digits are legal: below 16 at position 0 and below 10 elsewhere. */
  predicate Legal(s: Digits, lo: nat, hi: nat) {
    forall i :: lo <= i < hi && i < 16 ==> s[i] < Base(i)
  }

  function FieldValue(s: Digits, m: Mask): nat
    requires Selects(m)
  {
    Value(s, m.start, m.end + 1)
  }

  function FieldModulus(m: Mask): (r: nat)
    requires Selects(m)
    ensures r > 0
  {
    Modulus(m.start, m.end + 1)
  }

  predicate LegalField(s: Digits, m: Mask) {
    Legal(s, m.start, m.end + 1)
  }

  /** A register holding one digit and zeros. */
  function Single(position: nat, digit: Byte): Digits
    requires position < 16
  {
    ZERO_DIGITS[position := digit]
  }

  /** The number the mask's constant stands for. */
  function ConstantValue(m: Mask): nat
    requires Selects(m)
  {
    FieldValue(Single(m.cpos, m.cval), m)
  }

  predicate SameOutside(a: Digits, b: Digits, m: Mask) {
    forall i :: 0 <= i < 16 && !InField(m, i) ==> a[i] == b[i]
  }

  // ---------------------------------------------------------------- numbers

  lemma {:induction false} ModulusIsPow10(lo: nat, hi: nat)
    requires 1 <= lo <= hi
    ensures Modulus(lo, hi) == Pow10(hi - lo)
    decreases hi - lo
  {
    if lo < hi {
      ModulusIsPow10(lo + 1, hi);
    }
  }

  /** A field without digit 0 is decimal; mask ALL is the mixed-radix case. */
  lemma FieldModulusIs(m: Mask)
    requires Selects(m)
    ensures m.start >= 1 ==> FieldModulus(m) == Pow10(m.end + 1 - m.start)
    ensures m.start == 0 ==> FieldModulus(m) == 16 * Pow10(m.end)
  {
    ModulusIsPow10(if m.start == 0 then 1 else m.start, m.end + 1);
  }

  lemma {:induction false} ValueBelowModulus(s: Digits, lo: nat, hi: nat)
    requires lo <= hi <= 16 && Legal(s, lo, hi)
    ensures Value(s, lo, hi) < Modulus(lo, hi)
    decreases hi - lo
  {
    if lo < hi {
      ValueBelowModulus(s, lo + 1, hi);
    }
  }

  /** A field's number determines its digits. */
  lemma {:induction false} ValueDeterminesDigits(s: Digits, t: Digits, lo: nat, hi: nat)
    requires lo <= hi <= 16 && Legal(s, lo, hi) && Legal(t, lo, hi)
    requires Value(s, lo, hi) == Value(t, lo, hi)
    ensures s[lo..hi] == t[lo..hi]
    decreases hi - lo
  {
    if lo < hi {
      ValueDeterminesDigits(s, t, lo + 1, hi);
      assert s[lo..hi] == [s[lo]] + s[lo + 1..hi];
      assert t[lo..hi] == [t[lo]] + t[lo + 1..hi];
    }
  }

  lemma {:induction false} ZerosHaveNoValue(lo: nat, hi: nat)
    requires lo <= hi <= 16
    ensures Value(ZERO_DIGITS, lo, hi) == 0
    decreases hi - lo
  {
    if lo < hi {
      ZerosHaveNoValue(lo + 1, hi);
    }
  }

  lemma {:induction false} ValueCongruent(s: Digits, t: Digits, lo: nat, hi: nat)
    requires lo <= hi <= 16
    requires forall i :: lo <= i < hi ==> s[i] == t[i]
    ensures Value(s, lo, hi) == Value(t, lo, hi)
    decreases hi - lo
  {
    if lo < hi {
      ValueCongruent(s, t, lo + 1, hi);
    }
  }

  /** Changing one digit changes the number by that digit's weight. */
  lemma {:induction false} ValueSplitsDigit(s: Digits, t: Digits, p: nat, d: Byte, lo: nat, hi: nat)
    requires lo <= hi <= 16 && p < 16
    requires forall i :: 0 <= i < 16 ==> t[i] == if i == p then s[i] + d else s[i] as int
    ensures Value(t, lo, hi) == Value(s, lo, hi) + Value(Single(p, d), lo, hi)
    decreases hi - lo
  {
    if lo < hi {
      ValueSplitsDigit(s, t, p, d, lo + 1, hi);
    }
  }

  lemma {:induction false} SingleIsPow10(p: nat, d: Byte, lo: nat, hi: nat)
    requires 1 <= lo <= p < hi <= 16
    ensures Value(Single(p, d), lo, hi) == d * Pow10(p - lo)
    decreases hi - lo
  {
    var rest := Value(Single(p, d), lo + 1, hi);
    if lo == p {
      ValueCongruent(Single(p, d), ZERO_DIGITS, lo + 1, hi);
      ZerosHaveNoValue(lo + 1, hi);
      assert rest == 0 && Pow10(p - lo) == 1;
    } else {
      SingleIsPow10(p, d, lo + 1, hi);
      assert Value(Single(p, d), lo, hi) == 10 * rest;
      TimesTen(d, Pow10(p - (lo + 1)));
    }
  }

  lemma TimesTen(a: nat, b: nat)
    ensures a * (10 * b) == 10 * (a * b)
  {
  }

  /** In a decimal field the constant is cval * 10^(cpos - start). */
  lemma ConstantValueIs(m: Mask)
    requires Selects(m)
    ensures m.start >= 1 ==> ConstantValue(m) == m.cval * Pow10(m.cpos - m.start)
    ensures m.cval == 0 ==> ConstantValue(m) == 0
  {
    hide Value, Pow10;
    if m.start >= 1 {
      SingleIsPow10(m.cpos, m.cval, m.start, m.end + 1);
    } else if m.cval == 0 {
      assert Single(m.cpos, 0) == ZERO_DIGITS;
      ZerosHaveNoValue(m.start, m.end + 1);
    }
  }

  // --------------------------------------------------------- add, subtract

  /** One position adds: digit, then carry. */
  lemma AddDigit(i: nat, x: Byte, z: Byte, carry: Carry)
    requires x + z + 1 < 2 * Base(i)
    ensures var raw := RawSum(Add, x, z, carry);
            Corrected(Add, i, raw) + Base(i) * CarryOut(i, raw) == x + z + carry && Corrected(Add, i, raw) < Base(i)
  {
  }

  /** One position subtracts: the 8-bit wrap of a negative sum is what signals the borrow. */
  lemma SubDigit(i: nat, x: Byte, z: Byte, carry: Carry)
    requires x < Base(i) && z + carry <= x + Base(i)
    ensures var raw := RawSum(Sub, x, z, carry);
            Corrected(Sub, i, raw) - Base(i) * CarryOut(i, raw) == x - z - carry && Corrected(Sub, i, raw) < Base(i)
  {
  }

  /** One more low digit, with its own carry, in front of a sum. */
  lemma AddStep(i: nat, hi: nat, r: Digits, x: Digits, z: Digits, carry: Carry, next: Carry, last: Carry)
    requires i < hi <= 16
    requires r[i] + Base(i) * next == x[i] + z[i] + carry
    requires Value(r, i + 1, hi)
          == Value(x, i + 1, hi) + Value(z, i + 1, hi) + next - (if last == 1 then Modulus(i + 1, hi) else 0)
    ensures Value(r, i, hi) == Value(x, i, hi) + Value(z, i, hi) + carry - (if last == 1 then Modulus(i, hi) else 0)
  {
  }

  /** One more low digit, with its own borrow, in front of a difference. */
  lemma SubStep(i: nat, hi: nat, r: Digits, x: Digits, z: Digits, borrow: Carry, next: Carry, last: Carry)
    requires i < hi <= 16
    requires r[i] - Base(i) * next == x[i] - z[i] - borrow
    requires Value(r, i + 1, hi)
          == Value(x, i + 1, hi) - Value(z, i + 1, hi) - next + (if last == 1 then Modulus(i + 1, hi) else 0)
    ensures Value(r, i, hi) == Value(x, i, hi) - Value(z, i, hi) - borrow + (if last == 1 then Modulus(i, hi) else 0)
  {
  }

  /** One correction per position is enough: no pair of digits sums past twice the base. */
  predicate Addable(x: Digits, z: Digits, m: Mask) {
    forall k :: m.start <= k <= m.end && k < 16 ==> x[k] + z[k] + 1 < 2 * Base(k)
  }

  /** One correction per position is enough: no difference falls more than the base below zero. */
  predicate Subtractable(x: Digits, z: Digits, m: Mask) {
    forall k :: m.start <= k <= m.end && k < 16 ==> z[k] + (if k == m.start then 0 else 1) <= x[k] + Base(k)
  }

  lemma EmptyField(r: Digits, x: Digits, z: Digits, i: nat)
    requires i <= 16
    ensures Value(r, i, i) == 0 && Value(x, i, i) == 0 && Value(z, i, i) == 0 && Modulus(i, i) == 1
  {
  }

  lemma {:induction false} AddFrom(r: Digits, x: Digits, z: Digits, m: Mask, i: nat)
    requires Selects(m) && m.start <= i <= m.end + 1
    requires Addable(x, z, m)
    requires forall k :: m.start <= k <= m.end ==> r[k] == SumAt(Add, x, z, m, k)
    ensures Legal(r, i, m.end + 1)
    ensures Value(r, i, m.end + 1)
         == Value(x, i, m.end + 1) + Value(z, i, m.end + 1) + CarryInto(Add, x, z, m, i)
            - (if CarryInto(Add, x, z, m, m.end + 1) == 1 then Modulus(i, m.end + 1) else 0)
    decreases m.end + 1 - i
  {
    hide Value, Modulus, RawSum, Corrected;
    if i <= m.end {
      AddFrom(r, x, z, m, i + 1);
      var carry := CarryInto(Add, x, z, m, i);
      AddDigit(i, x[i], z[i], carry);
      assert CarryInto(Add, x, z, m, i + 1) == CarryOut(i, RawSum(Add, x[i], z[i], carry));
      AddStep(i, m.end + 1, r, x, z, carry, CarryInto(Add, x, z, m, i + 1), CarryInto(Add, x, z, m, m.end + 1));
    } else {
      EmptyField(r, x, z, i);
    }
  }

  lemma {:induction false} SubFrom(r: Digits, x: Digits, z: Digits, m: Mask, i: nat)
    requires Selects(m) && m.start <= i <= m.end + 1
    requires LegalField(x, m) && Subtractable(x, z, m)
    requires forall k :: m.start <= k <= m.end ==> r[k] == SumAt(Sub, x, z, m, k)
    ensures Legal(r, i, m.end + 1)
    ensures Value(r, i, m.end + 1)
         == Value(x, i, m.end + 1) - Value(z, i, m.end + 1) - CarryInto(Sub, x, z, m, i)
            + (if CarryInto(Sub, x, z, m, m.end + 1) == 1 then Modulus(i, m.end + 1) else 0)
    decreases m.end + 1 - i
  {
    hide Value, Modulus, RawSum, Corrected;
    if i <= m.end {
      SubFrom(r, x, z, m, i + 1);
      var carry := CarryInto(Sub, x, z, m, i);
      assert i == m.start ==> carry == 0;
      SubDigit(i, x[i], z[i], carry);
      assert CarryInto(Sub, x, z, m, i + 1) == CarryOut(i, RawSum(Sub, x[i], z[i], carry));
      SubStep(i, m.end + 1, r, x, z, carry, CarryInto(Sub, x, z, m, i + 1), CarryInto(Sub, x, z, m, m.end + 1));
    } else {
      EmptyField(r, x, z, i);
    }
  }

  lemma ModuloOnce(n: nat, modulus: nat, result: nat)
    requires result < modulus
    requires n == result || n == result + modulus
    ensures n % modulus == result
  {
    if n == result + modulus {
      assert n % modulus == (n - modulus) % modulus;
    }
  }

  lemma ModuloOnceBelow(n: int, modulus: nat, result: nat)
    requires result < modulus
    requires n == result || n == result - modulus
    ensures n % modulus == result
  {
    if n == result - modulus {
      assert n % modulus == (n + modulus) % modulus;
    }
  }

  /** ADD writes the sum modulo the field's size; COND is cleared exactly on overflow. */
  lemma AddIsModular(dst: Digits, x: Digits, z: Digits, m: Mask)
    requires Selects(m) && LegalField(x, m) && LegalField(z, m)
    ensures var r := Result(dst, Add, x, z, m);
            var total := FieldValue(x, m) + FieldValue(z, m);
            && LegalField(r, m)
            && SameOutside(r, dst, m)
            && FieldValue(r, m) == total % FieldModulus(m)
            && (ClearsCond(Add, x, z, m) <==> total >= FieldModulus(m))
  {
    hide RawSum, Corrected, Value, Modulus;
    var r := Result(dst, Add, x, z, m);
    AddFrom(r, x, z, m, m.start);
    assert ClearsCond(Add, x, z, m) <==> CarryInto(Add, x, z, m, m.end + 1) == 1;
    ValueBelowModulus(r, m.start, m.end + 1);
    ModuloOnce(FieldValue(x, m) + FieldValue(z, m), FieldModulus(m), FieldValue(r, m));
  }

  /** SUB writes the difference modulo the field's size; COND is cleared exactly on borrow. */
  lemma SubIsModular(dst: Digits, x: Digits, z: Digits, m: Mask)
    requires Selects(m) && LegalField(x, m) && LegalField(z, m)
    ensures var r := Result(dst, Sub, x, z, m);
            var difference := FieldValue(x, m) - FieldValue(z, m);
            && LegalField(r, m)
            && SameOutside(r, dst, m)
            && FieldValue(r, m) == difference % FieldModulus(m)
            && (ClearsCond(Sub, x, z, m) <==> difference < 0)
  {
    hide RawSum, Corrected, Value, Modulus;
    var r := Result(dst, Sub, x, z, m);
    SubFrom(r, x, z, m, m.start);
    assert ClearsCond(Sub, x, z, m) <==> CarryInto(Sub, x, z, m, m.end + 1) == 1;
    ValueBelowModulus(r, m.start, m.end + 1);
    ModuloOnceBelow(FieldValue(x, m) - FieldValue(z, m), FieldModulus(m), FieldValue(r, m));
  }

  /** The or-ed operand is the true sum of operand and constant less their common bits. */
  lemma OperandValue(y: Digits, m: Mask)
    requires Selects(m)
    ensures var lost := And(y[m.cpos], m.cval);
            lost <= y[m.cpos] && lost <= m.cval &&
            FieldValue(Operand(y, m), m) + FieldValue(Single(m.cpos, lost), m) == FieldValue(y, m) + ConstantValue(m)
  {
    OrIsSumLessCommonBits(y[m.cpos], m.cval);
    SplitOperand(y, Operand(y, m), m, And(y[m.cpos], m.cval));
  }

  lemma SplitOperand(y: Digits, z: Digits, m: Mask, lost: Byte)
    requires Selects(m) && lost <= y[m.cpos] && lost <= m.cval && y[m.cpos] - lost + m.cval < 0x100
    requires z == y[m.cpos := y[m.cpos] - lost + m.cval]
    ensures FieldValue(z, m) + FieldValue(Single(m.cpos, lost), m) == FieldValue(y, m) + ConstantValue(m)
  {
    var base := y[m.cpos := y[m.cpos] - lost];
    ValueSplitsDigit(base, y, m.cpos, lost, m.start, m.end + 1);
    ValueSplitsDigit(base, z, m.cpos, m.cval, m.start, m.end + 1);
  }

  /**
   With the mask's constant K: ADD computes X + Y + K exactly when the constant shares
   no bit with the digit it is or-ed into; a null operand or a zero constant never does.
   */
  lemma AddWithConstant(dst: Digits, x: Digits, y: Digits, m: Mask)
    requires Selects(m) && LegalField(x, m) && LegalField(y, m) && LegalField(Operand(y, m), m)
    ensures FieldValue(Result(dst, Add, x, Operand(y, m), m), m)
            == (FieldValue(x, m) + FieldValue(y, m) + ConstantValue(m)) % FieldModulus(m)
            <==> And(y[m.cpos], m.cval) == 0
    ensures m.cval == 0 || y == ZERO_DIGITS ==> And(y[m.cpos], m.cval) == 0
  {
    hide Value, Modulus, Result, ClearsCond, Operand, FieldValue, FieldModulus, And;
    var z := Operand(y, m);
    NothingShared(y[m.cpos], m.cval);
    AddIsModular(dst, x, z, m);
    OperandValue(y, m);
    var lost := And(y[m.cpos], m.cval);
    LostConstant(m, lost);
    ShiftedResidue(FieldValue(x, m) + FieldValue(z, m), FieldValue(Single(m.cpos, lost), m), FieldModulus(m));
  }

  lemma NothingShared(a: nat, b: nat)
    ensures a == 0 || b == 0 ==> And(a, b) == 0
  {
  }

  /** The same for SUB and X - Y - K. */
  lemma SubWithConstant(dst: Digits, x: Digits, y: Digits, m: Mask)
    requires Selects(m) && LegalField(x, m) && LegalField(y, m) && LegalField(Operand(y, m), m)
    ensures FieldValue(Result(dst, Sub, x, Operand(y, m), m), m)
            == (FieldValue(x, m) - FieldValue(y, m) - ConstantValue(m)) % FieldModulus(m)
            <==> And(y[m.cpos], m.cval) == 0
  {
    hide Value, Modulus, Result, ClearsCond, Operand, FieldValue, FieldModulus, And;
    var z := Operand(y, m);
    SubIsModular(dst, x, z, m);
    OperandValue(y, m);
    var lost := And(y[m.cpos], m.cval);
    LostConstant(m, lost);
    ShiftedResidue(FieldValue(x, m) - FieldValue(y, m) - ConstantValue(m), FieldValue(Single(m.cpos, lost), m), FieldModulus(m));
  }

  /** In a decimal field, with K absent or Y null: digits, COND and the rest of the register. */
  lemma DecimalAdd(dst: Digits, x: Digits, y: Digits, m: Mask)
    requires Selects(m) && m.start >= 1 && m.cval < 10 && LegalField(x, m) && LegalField(y, m)
    requires m.cval == 0 || y == ZERO_DIGITS
    ensures var z := Operand(y, m);
            var r := Result(dst, Add, x, z, m);
            var w := Pow10(m.end + 1 - m.start);
            var total := FieldValue(x, m) + FieldValue(y, m) + m.cval * Pow10(m.cpos - m.start);
            && FieldValue(r, m) == total % w && (ClearsCond(Add, x, z, m) <==> total >= w)
            && LegalField(r, m) && SameOutside(r, dst, m)
  {
    hide RawSum, RawAt, CarryInto, Corrected, Value, Modulus, Result, ClearsCond, And;
    PlainOperand(y, m);
    AddIsModular(dst, x, Operand(y, m), m);
    OperandValue(y, m);
    LostConstant(m, 0);
    ConstantValueIs(m);
    FieldModulusIs(m);
  }

  lemma DecimalSub(dst: Digits, x: Digits, y: Digits, m: Mask)
    requires Selects(m) && m.start >= 1 && m.cval < 10 && LegalField(x, m) && LegalField(y, m)
    requires m.cval == 0 || y == ZERO_DIGITS
    ensures var z := Operand(y, m);
            var r := Result(dst, Sub, x, z, m);
            var w := Pow10(m.end + 1 - m.start);
            var difference := FieldValue(x, m) - FieldValue(y, m) - m.cval * Pow10(m.cpos - m.start);
            && FieldValue(r, m) == difference % w && (ClearsCond(Sub, x, z, m) <==> difference < 0)
            && LegalField(r, m) && SameOutside(r, dst, m)
  {
    hide RawSum, RawAt, CarryInto, Corrected, Value, Modulus, Result, ClearsCond, And;
    PlainOperand(y, m);
    SubIsModular(dst, x, Operand(y, m), m);
    OperandValue(y, m);
    LostConstant(m, 0);
    ConstantValueIs(m);
    FieldModulusIs(m);
  }

  lemma PlainOperand(y: Digits, m: Mask)
    requires Selects(m) && m.start >= 1 && m.cval < 10 && LegalField(y, m)
    requires m.cval == 0 || y == ZERO_DIGITS
    ensures LegalField(Operand(y, m), m) && And(y[m.cpos], m.cval) == 0
  {
    assert Operand(y, m)[m.cpos] == if m.cval == 0 then y[m.cpos] else m.cval;
  }

  lemma LostConstant(m: Mask, lost: Byte)
    requires Selects(m) && lost < Base(m.cpos)
    ensures FieldValue(Single(m.cpos, lost), m) < FieldModulus(m)
    ensures FieldValue(Single(m.cpos, lost), m) == 0 <==> lost == 0
  {
    ValueBelowModulus(Single(m.cpos, lost), m.start, m.end + 1);
    if lost == 0 {
      assert Single(m.cpos, 0) == ZERO_DIGITS;
      ZerosHaveNoValue(m.start, m.end + 1);
    } else {
      SinglePositive(m.cpos, lost, m.start, m.end + 1);
    }
  }

  lemma {:induction false} SinglePositive(p: nat, d: Byte, lo: nat, hi: nat)
    requires lo <= p < hi <= 16 && d > 0
    ensures Value(Single(p, d), lo, hi) > 0
    decreases hi - lo
  {
    if lo < p {
      SinglePositive(p, d, lo + 1, hi);
    }
  }

  /** Two numbers less than a modulus apart leave the same residue only when equal. */
  lemma ShiftedResidue(n: int, shift: nat, modulus: nat)
    requires shift < modulus
    ensures (n + shift) % modulus == n % modulus <==> shift == 0
  {
    var q, r := n / modulus, n % modulus;
    assert n == modulus * q + r;
    if r + shift < modulus {
      DivisionUnique(n + shift, modulus, q, r + shift);
    } else {
      assert n + shift == modulus * (q + 1) + (r + shift - modulus);
      DivisionUnique(n + shift, modulus, q + 1, r + shift - modulus);
    }
  }

  lemma DivisionUnique(n: int, modulus: nat, q: int, r: nat)
    requires r < modulus && n == modulus * q + r
    ensures n % modulus == r && n / modulus == q
  {
    QuotientUnique(modulus, q, r, n / modulus, n % modulus);
  }

  lemma QuotientUnique(modulus: nat, q: int, r: nat, q': int, r': nat)
    requires r < modulus && r' < modulus
    requires modulus * q + r == modulus * q' + r'
    ensures q == q' && r == r'
  {
    if q > q' {
      AtLeastOneMore(modulus, q, q');
    } else if q < q' {
      AtLeastOneMore(modulus, q', q);
    }
  }

  lemma AtLeastOneMore(modulus: nat, q: int, q': int)
    requires q > q'
    ensures modulus * q >= modulus * q' + modulus
  {
    var more: nat := q - q' - 1;
    Distribute(modulus, q', more);
    assert modulus * more >= 0;
  }

  lemma Distribute(a: int, b: int, c: int)
    ensures a * (b + 1 + c) == a * b + a + a * c
  {
  }

  /** Or-ing loses a shared bit: 1 + 1 with mask 15's constant 1 gives 2, not 3. */
  lemma AddConstantCounterexample(m: Mask, one: Digits)
    requires m == MaskInfo(15) && one == Single(1, 1)
    ensures LegalField(one, m) && LegalField(Operand(one, m), m)
    ensures FieldValue(Result(ZERO_DIGITS, Add, one, Operand(one, m), m), m)
            != (FieldValue(one, m) + FieldValue(one, m) + ConstantValue(m)) % FieldModulus(m)
  {
    assert And(one[1], m.cval) == 1 && Or(one[1], m.cval) == 1;
    assert Operand(one, m) == one;
    AddWithConstant(ZERO_DIGITS, one, one, m);
  }

  // ------------------------------------------------------ legal digits kept

  /** Or-ing the constant keeps a legal operand legal, except 8 or 9 with mask 11's constant 5. */
  lemma OperandLegal(y: Digits, index: nat)
    requires Selects(MaskInfo(index)) && LegalField(y, MaskInfo(index))
    ensures LegalField(Operand(y, MaskInfo(index)), MaskInfo(index)) <==> !(index == 11 && y[3] >= 8)
  {
    var m := MaskInfo(index);
    var digit := y[m.cpos];
    OrTable(digit);
    assert Operand(y, m)[m.cpos] == Or(digit, m.cval);
    assert forall i :: 0 <= i < 16 && i != m.cpos ==> Operand(y, m)[i] == y[i];
  }

  lemma OrTable(y: nat)
    requires y < 16
    ensures Or(y, 0) == y && Or(y, 12) < 16
    ensures y < 10 ==> Or(y, 1) < 10
    ensures y < 10 ==> (Or(y, 5) < 10 <==> y < 8)
  {
    assert Pow2(4) == 16;
    OrBelow(y, 12, 4);
    OrWithFive(y);
    assert Or(y / 2, 0) == y / 2;
  }

  lemma OrWithFive(y: nat)
    requires y < 16
    ensures y < 8 ==> Or(y, 5) < 8
    ensures y >= 8 ==> Or(y, 5) == 13 || Or(y, 5) == 15
  {
    assert Pow2(3) == 8;
    if y < 8 {
      OrBelow(y, 5, 3);
    } else {
      assert Or(y / 2 / 2, 1) == 3;
      assert Or(y / 2, 2) == (if y / 2 % 2 == 1 then 1 else 0) + 2 * Or(y / 2 / 2, 1);
    }
  }

  // ------------------------------------------------------ shifts

  lemma {:induction false} ValueSplitsTop(s: Digits, lo: nat, hi: nat)
    requires lo < hi <= 16
    ensures Value(s, lo, hi) == Value(s, lo, hi - 1) + s[hi - 1] * Modulus(lo, hi - 1)
    decreases hi - lo
  {
    if lo + 1 < hi {
      ValueSplitsTop(s, lo + 1, hi);
      ScaleBy(Base(lo), Value(s, lo + 1, hi - 1), s[hi - 1], Modulus(lo + 1, hi - 1));
    }
  }

  lemma ScaleBy(b: nat, v: nat, d: nat, w: nat)
    ensures b * (v + d * w) == b * v + d * (b * w)
  {
  }

  lemma {:induction false} ModulusSplitsTop(lo: nat, hi: nat)
    requires 1 <= lo < hi
    ensures Modulus(lo, hi) == 10 * Modulus(lo, hi - 1)
    decreases hi - lo
  {
    if lo + 1 < hi {
      ModulusSplitsTop(lo + 1, hi);
    }
  }

  lemma {:induction false} ShiftedUp(r: Digits, s: Digits, lo: nat, hi: nat)
    requires 1 <= lo < hi <= 16
    requires forall i :: lo < i < hi ==> r[i] == s[i - 1]
    ensures Value(r, lo, hi) == r[lo] + 10 * Value(s, lo, hi - 1)
    decreases hi - lo
  {
    if lo + 1 < hi {
      ShiftedUp(r, s, lo + 1, hi);
    }
  }

  lemma {:induction false} ShiftedDown(r: Digits, s: Digits, lo: nat, hi: nat)
    requires 1 <= lo < hi <= 16
    requires r[hi - 1] == 0
    requires forall i :: lo <= i < hi - 1 ==> r[i] == s[i + 1]
    ensures Value(r, lo, hi) == Value(s, lo + 1, hi)
    decreases hi - lo
  {
    if lo + 1 < hi {
      ShiftedDown(r, s, lo + 1, hi);
    }
  }

  /** The operands of a shift: one register and nothing, in either order. */
  predicate OneOperand(x: Digits, z: Digits, s: Digits) {
    (x == s && z == ZERO_DIGITS) || (x == ZERO_DIGITS && z == s)
  }

  lemma OneDigit(op: Op, i: nat, x: Byte, z: Byte)
    requires op == Add || op == Shl
    requires (x == 0 && z < Base(i)) || (z == 0 && x < Base(i))
    ensures RawSum(op, x, z, 0) == x + z && Corrected(op, i, x + z) == x + z && CarryOut(i, x + z) == 0
  {
  }

  /** With one legal operand there is no carry: the sums are its digits. */
  lemma {:induction false} SumsOfOneOperand(op: Op, x: Digits, z: Digits, s: Digits, m: Mask, i: nat)
    requires op == Add || op == Shl
    requires Selects(m) && m.start <= i <= m.end && LegalField(s, m) && OneOperand(x, z, s)
    ensures CarryInto(op, x, z, m, i) == 0 && RawAt(op, x, z, m, i) == s[i] && SumAt(op, x, z, m, i) == s[i]
  {
    if i > m.start {
      SumsOfOneOperand(op, x, z, s, m, i - 1);
    }
    OneDigit(op, i, x[i], z[i]);
  }

  /** SHL multiplies a decimal field by ten, dropping the digit that leaves it. */
  lemma ShlTimesTen(dst: Digits, x: Digits, z: Digits, s: Digits, m: Mask)
    requires Selects(m) && m.start >= 1 && LegalField(s, m) && OneOperand(x, z, s)
    ensures var r := Result(dst, Shl, x, z, m);
            && FieldValue(r, m) == (10 * FieldValue(s, m)) % FieldModulus(m)
            && SameOutside(r, dst, m) && LegalField(r, m) && !ClearsCond(Shl, x, z, m)
  {
    hide RawSum, RawAt, CarryInto, Corrected, Value, Modulus;
    var r := Result(dst, Shl, x, z, m);
    forall i | m.start < i <= m.end
      ensures r[i] == s[i - 1]
    {
      SumsOfOneOperand(Shl, x, z, s, m, i - 1);
    }
    ShiftedUp(r, s, m.start, m.end + 1);
    TopDigitDrops(s, m.start, m.end + 1);
  }

  /** Times ten, modulo the field, loses exactly the top digit. */
  lemma TopDigitDrops(s: Digits, lo: nat, hi: nat)
    requires 1 <= lo < hi <= 16 && Legal(s, lo, hi)
    ensures (10 * Value(s, lo, hi)) % Modulus(lo, hi) == 10 * Value(s, lo, hi - 1)
  {
    ValueSplitsTop(s, lo, hi);
    ModulusSplitsTop(lo, hi);
    ValueBelowModulus(s, lo, hi - 1);
    var top, rest, weight := s[hi - 1], Value(s, lo, hi - 1), Modulus(lo, hi - 1);
    ScaleBy(10, rest, top, weight);
    Commutes(top, 10 * weight);
    DivisionUnique(10 * Value(s, lo, hi), Modulus(lo, hi), top, 10 * rest);
  }

  lemma Commutes(a: int, b: int)
    ensures a * b == b * a
  {
  }

  lemma FieldByTen(s: Digits, m: Mask)
    requires Selects(m) && m.start >= 1 && LegalField(s, m)
    ensures FieldValue(s, m) / 10 == Value(s, m.start + 1, m.end + 1)
  {
    ValueOfDigits(s, m);
    hide Value;
  }

  /** SHR divides a decimal field by ten, rounding down. */
  lemma ShrByTen(dst: Digits, x: Digits, z: Digits, s: Digits, m: Mask)
    requires Selects(m) && m.start >= 1 && LegalField(s, m) && OneOperand(x, z, s)
    ensures var r := Result(dst, Shr, x, z, m);
            && FieldValue(r, m) == FieldValue(s, m) / 10
            && SameOutside(r, dst, m) && LegalField(r, m) && !ClearsCond(Shr, x, z, m)
  {
    hide RawSum, RawAt, CarryInto, Corrected, Modulus, Value;
    var r := Result(dst, Shr, x, z, m);
    assert forall i :: m.start <= i < m.end ==> r[i] == s[i + 1];
    ShiftedDown(r, s, m.start, m.end + 1);
    FieldByTen(s, m);
  }

  // ------------------------------------------------------ MOV dst,R5

  /** The first digit of what MOV dst,R5 passes through the adder. */
  function LoadedLow(m: Mask, r5: Byte): Byte {
    if m.cpos == m.start then OrByte(r5, m.cval) else r5
  }

  /** R5 and the mask's constant, or-ed when they meet in one digit. */
  function LoadedNumber(m: Mask, r5: Byte): nat
    requires Selects(m)
  {
    LoadedLow(m, r5) + (if m.cpos == m.start then 0 else ConstantValue(m))
  }

  /** Its digits in the field: the constant, unless it met R5, and zeros. */
  predicate LoadedDigits(z: Digits, m: Mask, r5: Byte)
    requires Selects(m)
  {
    z[m.start] == LoadedLow(m, r5) < 16 && forall i :: m.start < i <= m.end ==> z[i] == if i == m.cpos then m.cval else 0
  }

  lemma LoadedOperand(dst: Digits, m: Mask, r5: Byte)
    requires Selects(m) && r5 < 16
    ensures LoadedDigits(Operand(Loaded(dst, m, r5), m), m, r5)
  {
    OrTwice(r5, m.cval);
    hide Or;
  }

  lemma LoadedValue(z: Digits, m: Mask, r5: Byte)
    requires Selects(m) && LoadedDigits(z, m, r5)
    ensures FieldValue(z, m) == LoadedNumber(m, r5)
  {
    hide Value, Or;
    ValueOfDigits(z, m);
    if m.cpos == m.start {
      ValueCongruent(z, ZERO_DIGITS, m.start + 1, m.end + 1);
      ZerosHaveNoValue(m.start + 1, m.end + 1);
    } else {
      ValueCongruent(z, Single(m.cpos, m.cval), m.start + 1, m.end + 1);
      ValueOfDigits(Single(m.cpos, m.cval), m);
    }
  }

  lemma ValueOfDigits(z: Digits, m: Mask)
    requires Selects(m)
    ensures FieldValue(z, m) == z[m.start] + Base(m.start) * Value(z, m.start + 1, m.end + 1)
  {
  }

  lemma OrTwice(r5: Byte, k: Byte)
    requires r5 < 16 && k < 16
    ensures OrByte(r5, k) < 16 && OrByte(k, k) == k
  {
    assert Pow2(4) == 16;
    OrBelow(r5, k, 4);
    OrSelf(k);
  }

  lemma {:induction false} OrSelf(k: nat)
    ensures Or(k, k) == k
  {
    if k > 0 {
      OrSelf(k / 2);
    }
  }

  /**
   MOV dst,R5 leaves the decimal value of R5 and the mask's constant for every nibble, 10 to 15
   included; COND is cleared only when that leaves the field.
   */
  lemma NibbleLoad(dst: Digits, m: Mask, r5: Byte)
    requires Selects(m) && r5 < 16
    ensures var y := Loaded(dst, m, r5);
            var z := Operand(y, m);
            var r := Result(y, Add, ZERO_DIGITS, z, m);
            && FieldValue(r, m) == LoadedNumber(m, r5) % FieldModulus(m)
            && LegalField(r, m) && SameOutside(r, dst, m)
            && (ClearsCond(Add, ZERO_DIGITS, z, m) <==> LoadedNumber(m, r5) >= FieldModulus(m))
            && (m.start < m.end && m.cval < 9 ==> LoadedNumber(m, r5) < FieldModulus(m))
  {
    var y := Loaded(dst, m, r5);
    var z := Operand(y, m);
    LoadedOperand(dst, m, r5);
    LoadedValue(z, m, r5);
    LoadedAdds(z, m, LoadedNumber(m, r5), Result(y, Add, ZERO_DIGITS, z, m));
  }

  lemma LoadedAdds(z: Digits, m: Mask, total: nat, r: Digits)
    requires Selects(m) && FieldValue(z, m) == total
    requires forall i :: m.start <= i <= m.end ==> z[i] < 16
    requires forall k :: m.start <= k <= m.end ==> r[k] == SumAt(Add, ZERO_DIGITS, z, m, k)
    ensures FieldValue(r, m) == total % FieldModulus(m) && LegalField(r, m)
    ensures CarryInto(Add, ZERO_DIGITS, z, m, m.end + 1) == 1 <==> total >= FieldModulus(m)
    ensures m.start < m.end && z[m.end] < 9 ==> total < FieldModulus(m)
  {
    hide CarryInto, SumAt, FieldModulus, FieldValue;
    LoadedSum(z, m, r);
    ModuloOnce(total, FieldModulus(m), FieldValue(r, m));
    if m.start < m.end && z[m.end] < 9 {
      NoCarryOut(z, m);
    }
  }

  lemma LoadedSum(z: Digits, m: Mask, r: Digits)
    requires Selects(m) && forall i :: m.start <= i <= m.end ==> z[i] < 16
    requires forall k :: m.start <= k <= m.end ==> r[k] == SumAt(Add, ZERO_DIGITS, z, m, k)
    ensures LegalField(r, m) && FieldValue(r, m) < FieldModulus(m)
    ensures FieldValue(z, m) == FieldValue(r, m) + (if CarryInto(Add, ZERO_DIGITS, z, m, m.end + 1) == 1 then FieldModulus(m) else 0)
  {
    hide RawSum, RawAt, Corrected, CarryOut, SumAt, Modulus, Value;
    ZerosHaveNoValue(m.start, m.end + 1);
    AddFrom(r, ZERO_DIGITS, z, m, m.start);
    ValueBelowModulus(r, m.start, m.end + 1);
  }

  lemma NoCarryOut(z: Digits, m: Mask)
    requires Selects(m) && m.start < m.end && z[m.end] < 9
    ensures CarryInto(Add, ZERO_DIGITS, z, m, m.end + 1) == 0
  {
    var carry := CarryInto(Add, ZERO_DIGITS, z, m, m.end);
    AddDigit(m.end, 0, z[m.end], carry);
  }

  /**
   The subtracting form leaves minus that number exactly when the first digit is at most its base:
   in a decimal field from 11 on the digit is no longer decimal.
   */
  lemma NibbleLoadNegated(dst: Digits, m: Mask, r5: Byte)
    requires Selects(m) && r5 < 16 && (m.cpos != m.start ==> m.cval < 10)
    ensures var y := Loaded(dst, m, r5);
            var r := Result(y, Sub, ZERO_DIGITS, Operand(y, m), m);
            LegalField(r, m) && FieldValue(r, m) == (-(LoadedNumber(m, r5) as int)) % FieldModulus(m) <==>
              LoadedLow(m, r5) <= Base(m.start)
  {
    var y := Loaded(dst, m, r5);
    var z := Operand(y, m);
    LoadedOperand(dst, m, r5);
    LoadedValue(z, m, r5);
    var r := Result(y, Sub, ZERO_DIGITS, z, m);
    if z[m.start] <= Base(m.start) {
      LoadedSubtracts(z, m, LoadedNumber(m, r5), r);
    } else {
      assert CarryInto(Sub, ZERO_DIGITS, z, m, m.start) == 0;
      assert r[m.start] == Corrected(Sub, m.start, RawSum(Sub, 0, z[m.start], 0));
      assert !LegalField(r, m);
    }
  }

  lemma LoadedSubtracts(z: Digits, m: Mask, total: nat, r: Digits)
    requires Selects(m) && FieldValue(z, m) == total
    requires z[m.start] <= Base(m.start) && forall i :: m.start < i <= m.end ==> z[i] < 10
    requires forall k :: m.start <= k <= m.end ==> r[k] == SumAt(Sub, ZERO_DIGITS, z, m, k)
    ensures LegalField(r, m) && FieldValue(r, m) == (-(total as int)) % FieldModulus(m)
  {
    hide RawSum, RawAt, Corrected, CarryOut, SumAt, Modulus, Value;
    ZerosHaveNoValue(m.start, m.end + 1);
    SubFrom(r, ZERO_DIGITS, z, m, m.start);
    ValueBelowModulus(r, m.start, m.end + 1);
    ModuloOnceBelow(-(total as int), FieldModulus(m), FieldValue(r, m));
  }
}
