/**
 The register file and the digit-serial ALU over it: sixteen-digit arrays updated in
 place, where the destination of a pass may be one of its own sources.
 */
module RegisterFile {
  import opened Words
  import opened Alu
  import opened Core

  class AluUnit {
    const A: array<Byte>
    const B: array<Byte>
    const C: array<Byte>
    const D: array<Byte>
    const E: array<Byte>
    const Sout: array<Byte>
    var R5: Byte
    var cond: bool

    ghost predicate Valid() {
      && A.Length == B.Length == C.Length == D.Length == E.Length == Sout.Length == 16
      && A != B && A != C && A != D && A != E && A != Sout
      && B != C && B != D && B != E && B != Sout
      && C != D && C != E && C != Sout
      && D != E && D != Sout && E != Sout
    }

    ghost function Regs(): Registers
      requires Valid()
      reads this, A, B, C, D, E, Sout
    {
      Registers(A[..], B[..], C[..], D[..], E[..], Sout[..], R5)
    }

    constructor ()
      ensures Valid() && fresh({A, B, C, D, E, Sout})
      ensures Regs() == Registers(ZERO_DIGITS, ZERO_DIGITS, ZERO_DIGITS, ZERO_DIGITS, ZERO_DIGITS, ZERO_DIGITS, 0) && cond
    {
      A, B, C := new Byte[16](_ => 0), new Byte[16](_ => 0), new Byte[16](_ => 0);
      D, E, Sout := new Byte[16](_ => 0), new Byte[16](_ => 0), new Byte[16](_ => 0);
      R5, cond := 0, true;
      new;
      assert A[..] == ZERO_DIGITS && B[..] == ZERO_DIGITS && C[..] == ZERO_DIGITS;
      assert D[..] == ZERO_DIGITS && E[..] == ZERO_DIGITS && Sout[..] == ZERO_DIGITS;
    }

    /** The digits an operand pointer stands for; a null one counts as zeros. */
    static ghost function Contents(a: array?<Byte>): Digits
      requires a != null ==> a.Length == 16
      reads a
    {
      if a == null then ZERO_DIGITS else a[..]
    }

    /** One digit position: the 8-bit sum before and after decimal correction, and the carry out. */
    static method AluDigit(op: Op, i: nat, x: Byte, y: Byte, carryIn: Carry) returns (raw: Byte, sum: Byte, carry: Carry)
      ensures raw == RawSum(op, x, y, carryIn) && sum == Corrected(op, i, raw) && carry == CarryOut(i, raw)
    {
      var addend: Byte := if y + carryIn < 0x100 then y + carryIn else 0;
      if Negates(op) && addend > 0 {
        addend := 0x100 - addend;
      }
      raw := if addend + x < 0x100 then addend + x else addend + x - 0x100;
      sum := raw;
      if i == 0 {
        carry := if sum >= 0x10 then 1 else 0;
        sum := sum % 16;
      } else {
        carry := if sum >= 10 then 1 else 0;
        if carry == 1 {
          sum := if !Negates(op) then sum - 10 else if sum + 10 < 0x100 then sum + 10 else sum + 10 - 0x100;
        }
      }
    }

    /** One result digit on its way to the destination; SHR's goes one position down. */
    static method WriteDigit(dst: array<Byte>, op: Op, m: Mask, i: nat, shl: Byte, shr: Byte, sum: Byte)
      requires dst.Length == 16 && i < 16 && InField(m, i)
      modifies dst
      ensures dst[..] == Written(old(dst[..]), op, m, i, shl, shr, sum)
    {
      if op == Shl {
        dst[i] := shl;
      } else if op == Shr {
        if i > m.start {
          dst[i - 1] := shr;
        }
        if i == m.end {
          dst[i] := 0;
        }
      } else {
        dst[i] := sum;
      }
    }

    /** The operands still to be read: positions from `i` on hold what they held when the pass began. */
    static ghost predicate Unread(src: array?<Byte>, was: Digits, i: nat)
      requires src != null ==> src.Length == 16
      reads src
    {
      if src == null then was == ZERO_DIGITS else forall j :: i <= j < 16 ==> src[j] == was[j]
    }

    /** The sums of one position, from operands `x` and `y` as they were when the pass began. */
    static method AluSums(srcX: array?<Byte>, srcY: array?<Byte>, m: Mask, op: Op, i: nat, carryIn: Carry,
                          ghost x: Digits, ghost y: Digits)
      returns (raw: Byte, sum: Byte, shr: Byte, carry: Carry)
      requires i < 16
      requires srcX != null ==> srcX.Length == 16
      requires srcY != null ==> srcY.Length == 16
      requires Unread(srcX, x, i) && Unread(srcY, y, i)
      requires carryIn == CarryInto(op, x, Operand(y, m), m, i)
      ensures raw == RawAt(op, x, Operand(y, m), m, i) && sum == SumAt(op, x, Operand(y, m), m, i) && carry == CarryOut(i, raw)
      ensures shr == OrByte(Operand(y, m)[i], x[i])
    {
      var xDigit: Byte := if srcX == null then 0 else srcX[i];
      var yDigit: Byte := if srcY == null then 0 else srcY[i];
      if i == m.cpos {
        yDigit := OrByte(yDigit, m.cval);
      }
      raw, sum, carry := AluDigit(op, i, xDigit, yDigit, carryIn);
      shr := OrByte(yDigit, xDigit);
    }

    /** One position's outcome, in and outside the field. */
    method AluPosition(dst: array?<Byte>, m: Mask, op: Op, i: nat, raw: Byte, sum: Byte, shlIn: Byte, shr: Byte, carry: Carry)
      returns (shl: Byte)
      requires Sout.Length == 16 && i < 16 && dst != Sout
      requires dst != null ==> dst.Length == 16
      modifies this`R5, this`cond, Sout, if dst == null then {} else {dst}
      ensures shl == if InField(m, i) then sum else shlIn
      ensures Sout[..] == old(Sout[..])[i := if InField(m, i) then raw % 16 else 0]
      ensures R5 == if InField(m, i) && i == m.cpos then sum else old(R5)
      ensures cond == (old(cond) && !(InField(m, i) && i == m.end && (op == Add || op == Sub) && carry == 1))
      ensures dst != null ==>
                dst[..] == if InField(m, i) then Written(old(dst[..]), op, m, i, shlIn, shr, sum) else old(dst[..])
    {
      shl := shlIn;
      Sout[i] := if m.start <= i <= m.end then raw % 16 else 0;
      if m.start <= i <= m.end {
        if i == m.cpos {
          R5 := sum;
        }
        if dst != null {
          WriteDigit(dst, op, m, i, shl, shr, sum);
        }
        shl := sum;
        if i == m.end && (op == Add || op == Sub) && carry == 1 {
          cond := false;
        }
      }
    }

    /** One turn of the loop over the digit positions. */
    method AluStep(dst: array?<Byte>, srcX: array?<Byte>, srcY: array?<Byte>, m: Mask, op: Op, i: nat,
                   carryIn: Carry, shlIn: Byte, ghost x: Digits, ghost y: Digits)
      returns (carry: Carry, shl: Byte)
      requires Sout.Length == 16 && i < 16
      requires dst != null ==> dst.Length == 16
      requires srcX != null ==> srcX.Length == 16
      requires srcY != null ==> srcY.Length == 16
      requires dst != Sout && srcX != Sout && srcY != Sout
      requires Unread(srcX, x, i) && Unread(srcY, y, i)
      requires carryIn == CarryBefore(op, x, Operand(y, m), m, i)
      modifies this`R5, this`cond, Sout, if dst == null then {} else {dst}
      ensures Unread(srcX, x, i + 1) && Unread(srcY, y, i + 1)
      ensures carry == CarryOut(i, RawAt(op, x, Operand(y, m), m, i))
      ensures InField(m, i) ==> shl == SumAt(op, x, Operand(y, m), m, i)
      ensures Sout[..] == old(Sout[..])[i := BusDigit(op, x, Operand(y, m), m, i)]
      ensures R5 == if InField(m, i) && i == m.cpos then SumAt(op, x, Operand(y, m), m, i) else old(R5)
      ensures cond == (old(cond) && !(InField(m, i) && i == m.end && (op == Add || op == Sub) && carry == 1))
      ensures dst != null ==>
                dst[..] == if InField(m, i)
                           then Written(old(dst[..]), op, m, i, if i == m.start then 0 else shlIn, OrByte(Operand(y, m)[i], x[i]), SumAt(op, x, Operand(y, m), m, i))
                           else old(dst[..])
    {
      carry, shl := carryIn, shlIn;
      if i == m.start {
        shl, carry := 0, 0;
      }
      var raw, sum, shr;
      raw, sum, shr, carry := AluSums(srcX, srcY, m, op, i, carry, x, y);
      shl := AluPosition(dst, m, op, i, raw, sum, shl, shr, carry);
    }

    method RunAlu(dst: array?<Byte>, srcX: array?<Byte>, srcY: array?<Byte>, m: Mask, op: Op)
      requires Sout.Length == 16
      requires dst != null ==> dst.Length == 16
      requires srcX != null ==> srcX.Length == 16
      requires srcY != null ==> srcY.Length == 16
      requires dst != Sout && srcX != Sout && srcY != Sout && m.end < 16
      modifies this`R5, this`cond, Sout, if dst == null then {} else {dst}
      ensures Sout[..] == Bus(op, old(Contents(srcX)), Operand(old(Contents(srcY)), m), m)
      ensures dst != null ==> dst[..] == Result(old(Contents(dst)), op, old(Contents(srcX)), Operand(old(Contents(srcY)), m), m)
      ensures R5 == NewR5(old(R5), op, old(Contents(srcX)), Operand(old(Contents(srcY)), m), m)
      ensures cond == (old(cond) && !ClearsCond(op, old(Contents(srcX)), Operand(old(Contents(srcY)), m), m))
    {
      hide RawSum, RawAt, SumAt, CarryInto, CarryOut, Bus, BusDigit, Upto, Written, NewR5, ClearsCond, Result, Operand,
           CarryBefore, R5Before, CondBefore;
      ghost var x, y, was, r5, c := Contents(srcX), Contents(srcY), Contents(dst), R5, cond;
      ghost var z := Operand(y, m);
      StartFacts(op, x, z, m, was, r5, c);
      var carry: Carry, shl: Byte := 0, 0;
      for i := 0 to 16
        invariant carry == CarryBefore(op, x, z, m, i)
        invariant i > 0 && InField(m, i - 1) ==> shl == SumAt(op, x, z, m, i - 1)
        invariant Sout[..i] == Bus(op, x, z, m)[..i]
        invariant dst != null ==> dst[..] == Upto(op, x, z, m, was, i)
        invariant Unread(srcX, x, i) && Unread(srcY, y, i)
        invariant R5 == R5Before(r5, op, x, z, m, i)
        invariant cond == CondBefore(c, op, x, z, m, i)
      {
        StepFacts(op, x, z, m, was, r5, c, i);
        carry, shl := AluStep(dst, srcX, srcY, m, op, i, carry, shl, x, y);
      }
      PassFacts(op, x, z, m, was, r5, c);
    }

    /** How each quantity of the loop moves on at position `i`. */
    static lemma StepFacts(op: Op, x: Digits, z: Digits, m: Mask, was: Digits, r5: Byte, c: bool, i: nat)
      requires i < 16 && m.end < 16
      ensures CarryBefore(op, x, z, m, i + 1) == CarryOut(i, RawAt(op, x, z, m, i))
      ensures Bus(op, x, z, m)[i] == BusDigit(op, x, z, m, i)
      ensures Upto(op, x, z, m, was, i + 1)
           == if !InField(m, i) then Upto(op, x, z, m, was, i)
              else Written(Upto(op, x, z, m, was, i), op, m, i, if i == m.start then 0 else SumAt(op, x, z, m, i - 1),
                           OrByte(z[i], x[i]), SumAt(op, x, z, m, i))
      ensures R5Before(r5, op, x, z, m, i + 1)
           == if InField(m, i) && i == m.cpos then SumAt(op, x, z, m, i) else R5Before(r5, op, x, z, m, i)
      ensures CondBefore(c, op, x, z, m, i + 1)
           == (CondBefore(c, op, x, z, m, i)
               && !(InField(m, i) && i == m.end && (op == Add || op == Sub) && CarryOut(i, RawAt(op, x, z, m, i)) == 1))
    {
      hide RawSum;
    }

    /** Before the first position and after the last. */
    static lemma PassFacts(op: Op, x: Digits, z: Digits, m: Mask, was: Digits, r5: Byte, c: bool)
      requires m.end < 16
      ensures Upto(op, x, z, m, was, 16) == Result(was, op, x, z, m)
      ensures R5Before(r5, op, x, z, m, 16) == NewR5(r5, op, x, z, m)
      ensures CondBefore(c, op, x, z, m, 16) == (c && !ClearsCond(op, x, z, m))
    {
      UptoIsResult(op, x, z, m, was, 16);
    }

    static lemma StartFacts(op: Op, x: Digits, z: Digits, m: Mask, was: Digits, r5: Byte, c: bool)
      ensures CarryBefore(op, x, z, m, 0) == 0 && Upto(op, x, z, m, was, 0) == was
      ensures R5Before(r5, op, x, z, m, 0) == r5 && CondBefore(c, op, x, z, m, 0) == c
    {
    }

    static ghost function CarryBefore(op: Op, x: Digits, z: Digits, m: Mask, i: nat): Carry
      requires i <= 16
    {
      if i == 0 then 0 else CarryOut(i - 1, RawAt(op, x, z, m, i - 1))
    }

    static ghost function R5Before(r5: Byte, op: Op, x: Digits, z: Digits, m: Mask, i: nat): Byte {
      if m.cpos < i then NewR5(r5, op, x, z, m) else r5
    }

    static ghost predicate CondBefore(c: bool, op: Op, x: Digits, z: Digits, m: Mask, i: nat) {
      c && !(m.end < i && ClearsCond(op, x, z, m))
    }

    static method Xch(a: array<Byte>, b: array<Byte>, m: Mask)
      requires a.Length == 16 && b.Length == 16 && a != b && m.end < 16
      modifies a, b
      ensures a[..] == Exchanged(old(a[..]), old(b[..]), m)
      ensures b[..] == Exchanged(old(b[..]), old(a[..]), m)
    {
      if m.start == 0xFF {
        return;
      }
      var i: nat := m.start;
      while i <= m.end
        invariant m.start <= i
        invariant forall j :: 0 <= j < 16 ==> a[j] == if InField(m, j) && j < i then old(b[j]) else old(a[j])
        invariant forall j :: 0 <= j < 16 ==> b[j] == if InField(m, j) && j < i then old(a[j]) else old(b[j])
        decreases 16 - i
      {
        a[i], b[i] := b[i], a[i];
        i := i + 1;
      }
    }

    /** The array behind a register name; null for none. */
    function ArrayOf(name: RegName): array?<Byte> {
      match name
      case RegA => A
      case RegB => B
      case RegC => C
      case RegD => D
      case NoReg => null
    }

    /** An ALU pass into a named register. */
    method Pass(dst: RegName, op: Op, srcX: array?<Byte>, srcY: array?<Byte>, m: Mask)
      requires Valid() && m.end < 16
      requires srcX != null ==> srcX.Length == 16
      requires srcY != null ==> srcY.Length == 16
      requires srcX != Sout && srcY != Sout
      modifies this`R5, this`cond, Sout, if ArrayOf(dst) == null then {} else {ArrayOf(dst)}
      ensures Regs() == PassRegs(old(Regs()), dst, op, old(Contents(srcX)), old(Contents(srcY)), m)
      ensures cond == (old(cond) && !ClearsCond(op, old(Contents(srcX)), Operand(old(Contents(srcY)), m), m))
    {
      RunAlu(ArrayOf(dst), srcX, srcY, m, op);
    }

    /** The pre-pass of MOV dst,R5 and the pass over the loaded register itself. */
    method LoadR5(dst: RegName, m: Mask, op: Op)
      requires Valid() && Selects(m) && dst != NoReg
      modifies this`R5, this`cond, Sout, ArrayOf(dst)
      ensures var was := old(Regs());
              var loaded := Loaded(Get(was, dst), m, was.r5);
              Regs() == PassRegs(Put(was, dst, loaded), dst, op, ZERO_DIGITS, loaded, m) &&
              cond == (old(cond) && !ClearsCond(op, ZERO_DIGITS, Operand(loaded, m), m))
    {
      ghost var was := Regs();
      var a: array<Byte> := ArrayOf(dst);
      LoadInto(a, m);
      assert Regs() == Put(was, dst, Loaded(Get(was, dst), m, was.r5));
      Pass(dst, op, null, a, m);
    }

    method LoadInto(a: array<Byte>, m: Mask)
      requires a.Length == 16 && Selects(m)
      modifies a
      ensures a[..] == Loaded(old(a[..]), m, R5)
    {
      var i: nat := m.start + 1;
      while i <= m.end
        invariant m.start < i
        invariant forall j :: 0 <= j < 16 ==> a[j] == if m.start < j < i && j <= m.end then 0 else old(a[j])
        decreases 16 - i
      {
        a[i] := 0;
        i := i + 1;
      }
      a[m.cpos] := m.cval;
      a[m.start] := R5;
    }

    /** Exchange instructions: A with B, C with D, A with E. */
    method Exchange(opcode: bv16, m: Mask)
      requires Valid() && m.end < 16
      modifies A, B, C, D, E
      ensures Regs() == ExchangeRegs(old(Regs()), opcode, m)
    {
      if opcode & 0x0007 == 2 {
        Xch(A, B, m);
      } else if opcode & 0x0007 == 5 {
        Xch(C, D, m);
      } else if opcode & 0x0007 == 7 {
        Xch(A, E, m);
      }
    }

    method ClearSout()
      requires Valid()
      modifies Sout
      ensures Regs() == old(Regs()).(sout := ZERO_DIGITS)
    {
      forall i | 0 <= i < 16 {
        Sout[i] := 0;
      }
      assert Sout[..] == ZERO_DIGITS;
    }
  }
}
