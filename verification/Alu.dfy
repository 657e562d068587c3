/**
 The digit-serial ALU (Core/TMC0501.cpp): field masks, and what one pass over
 the sixteen digit positions computes.
 */
module Alu {
  import opened Words

  /** A field of digit positions and the constant injected at one of them. */
  datatype Mask = Mask(start: Byte, end: Byte, cpos: Byte, cval: Byte)

  const INVALID_MASK := Mask(0xFF, 0, 0, 0)

  /** The field-mask table; indices 0, 8 and 10 select no digits. */
  function MaskInfo(index: nat): Mask {
    match index
    case 1 => Mask(0, 15, 0, 0)
    case 2 => Mask(0, 0, 0, 0)
    case 3 => Mask(0, 0, 0, 1)
    case 4 => Mask(0, 0, 0, 0x0C)
    case 5 => Mask(3, 3, 3, 1)
    case 6 => Mask(1, 2, 1, 0)
    case 7 => Mask(1, 2, 1, 1)
    case 9 => Mask(3, 15, 3, 0)
    case 11 => Mask(3, 15, 3, 5)
    case 12 => Mask(1, 15, 1, 0)
    case 13 => Mask(1, 15, 3, 1)
    case 14 => Mask(1, 15, 15, 1)
    case 15 => Mask(1, 15, 1, 1)
    case _ => INVALID_MASK
  }

  /** A mask that selects a field: every ALU opcode carries one. */
  predicate Selects(m: Mask) {
    m.start <= m.cpos <= m.end <= 15 && m.cval < 16
  }

  predicate InField(m: Mask, i: nat) {
    m.start <= i <= m.end
  }

  datatype Op = Add | Shl | Sub | Shr

  predicate Negates(op: Op) {
    op == Sub || op == Shr
  }

  /** The second operand of a pass: the mask's constant or-ed into the digit at its position. */
  function Operand(y: Digits, m: Mask): Digits {
    if m.cpos < 16 then y[m.cpos := OrByte(y[m.cpos], m.cval)] else y
  }

  type Carry = c: int | 0 <= c <= 1

  function Wrap(n: nat): Byte
    requires n < 0x200
  {
    if n < 0x100 then n else n - 0x100
  }

  /** The 8-bit sum of one position before decimal correction; a negative one wraps. */
  function RawSum(op: Op, x: Byte, z: Byte, carry: Carry): Byte {
    var addend := Wrap(z + carry);
    Wrap((if Negates(op) && addend > 0 then 0x100 - addend else addend) + x)
  }

  /** Digit 0 counts to 16, the others to 10. */
  function Base(i: nat): nat {
    if i == 0 then 16 else 10
  }

  function CarryOut(i: nat, raw: Byte): Carry {
    if raw >= Base(i) then 1 else 0
  }

  function Corrected(op: Op, i: nat, raw: Byte): Byte {
    if raw < Base(i) then raw
    else if i == 0 then raw % 16
    else if Negates(op) then Wrap(raw + 10)
    else raw - 10
  }

  /** The carry (or borrow) that enters position `i`: none at position 0 or at the field's start. */
  function CarryInto(op: Op, x: Digits, z: Digits, m: Mask, i: nat): Carry
    requires i <= 16
    decreases i, 0
  {
    if i == 0 || i == m.start then 0
    else CarryOut(i - 1, RawAt(op, x, z, m, i - 1))
  }

  function RawAt(op: Op, x: Digits, z: Digits, m: Mask, i: nat): Byte
    requires i < 16
    decreases i, 1
  {
    RawSum(op, x[i], z[i], CarryInto(op, x, z, m, i))
  }

  function SumAt(op: Op, x: Digits, z: Digits, m: Mask, i: nat): Byte
    requires i < 16
  {
    Corrected(op, i, RawAt(op, x, z, m, i))
  }

  /** The destination digit at a position of the field. */
  function ResultDigit(op: Op, x: Digits, z: Digits, m: Mask, i: nat): Byte
    requires InField(m, i) && m.end < 16
  {
    match op
    case Shl => if i == m.start then 0 else SumAt(op, x, z, m, i - 1)
    case Shr => if i == m.end then 0 else OrByte(z[i + 1], x[i + 1])
    case _ => SumAt(op, x, z, m, i)
  }

  /** The destination register after the pass: digits outside the field stay. */
  function Result(dst: Digits, op: Op, x: Digits, z: Digits, m: Mask): Digits {
    seq(16, i requires 0 <= i < 16 => if InField(m, i) && m.end < 16 then ResultDigit(op, x, z, m, i) else dst[i])
  }

  /** The destination after one position's result digit is stored; SHR's goes one position down. */
  function Written(dst: Digits, op: Op, m: Mask, i: nat, shl: Byte, shr: Byte, sum: Byte): (r: Digits)
    requires i < 16
    ensures forall j :: i < j < 16 ==> r[j] == dst[j]
  {
    match op
    case Shl => dst[i := shl]
    case Shr =>
      var moved := if i > m.start && i > 0 then dst[i - 1 := shr] else dst;
      if i == m.end then moved[i := 0] else moved
    case _ => dst[i := sum]
  }

  /** The destination after the first `i` positions. */
  function Upto(op: Op, x: Digits, z: Digits, m: Mask, was: Digits, i: nat): (r: Digits)
    requires i <= 16
  {
    if i == 0 then was
    else
      var before := Upto(op, x, z, m, was, i - 1);
      if !InField(m, i - 1) then before
      else
        Written(before, op, m, i - 1,
                if i - 1 == m.start then 0 else SumAt(op, x, z, m, i - 2),
                OrByte(z[i - 1], x[i - 1]),
                SumAt(op, x, z, m, i - 1))
  }

  /** Position by position or all at once: the same register. */
  lemma {:induction false} UptoIsResult(op: Op, x: Digits, z: Digits, m: Mask, was: Digits, i: nat)
    requires i <= 16 && m.end < 16
    ensures forall j :: 0 <= j < 16 ==>
              Upto(op, x, z, m, was, i)[j]
              == if j < i && InField(m, j) && !(op == Shr && j == i - 1 && j < m.end) then ResultDigit(op, x, z, m, j) else was[j]
    ensures i == 16 ==> Upto(op, x, z, m, was, i) == Result(was, op, x, z, m)
  {
    if i > 0 {
      UptoIsResult(op, x, z, m, was, i - 1);
    }
  }

  /** The IO bus after the pass: uncorrected digits inside the field, zeros outside. */
  function Bus(op: Op, x: Digits, z: Digits, m: Mask): Digits {
    seq(16, i requires 0 <= i < 16 => BusDigit(op, x, z, m, i))
  }

  function BusDigit(op: Op, x: Digits, z: Digits, m: Mask, i: nat): Byte
    requires i < 16
  {
    if InField(m, i) then RawAt(op, x, z, m, i) % 16 else 0
  }

  /** R5 receives the sum at the constant's position, when that is in the field. */
  function NewR5(r5: Byte, op: Op, x: Digits, z: Digits, m: Mask): Byte {
    if InField(m, m.cpos) && m.cpos < 16 then SumAt(op, x, z, m, m.cpos) else r5
  }

  /** A carry or borrow out of the field clears COND, except after a shift. */
  predicate ClearsCond(op: Op, x: Digits, z: Digits, m: Mask) {
    InField(m, m.end) && m.end < 16 && (op == Add || op == Sub) && CarryOut(m.end, RawAt(op, x, z, m, m.end)) == 1
  }

  /** The pre-pass of MOV dst,R5: the field cleared, then the constant, then R5 at the start. */
  function Loaded(dst: Digits, m: Mask, r5: Byte): Digits
    requires Selects(m)
  {
    seq(16, i requires 0 <= i < 16 =>
      if i == m.start then r5
      else if i == m.cpos then m.cval
      else if InField(m, i) then 0
      else dst[i])
  }

  /** The masked field exchanged: the first register's new digits. */
  function Exchanged(a: Digits, b: Digits, m: Mask): Digits {
    seq(16, i requires 0 <= i < 16 => if InField(m, i) then b[i] else a[i])
  }

  /** A register with every digit outside the field cleared. */
  function Masked(a: Digits, m: Mask): Digits {
    Exchanged(ZERO_DIGITS, a, m)
  }
}
