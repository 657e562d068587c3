/** What the flag instructions and the keyboard scan do, bit by bit. */
module FlagEffects {
  import opened Words
  import opened Bits
  import opened Core
  import I = InstructionSet

  function Register(e: State, f: I.FlagReg): bv16 { if f == I.FA then e.fa else e.fb }

  /** Only the named flag register may differ. */
  predicate OnlyFlags(e: State, t: State, f: I.FlagReg) {
    t == if f == I.FA then e.(fa := t.fa) else e.(fb := t.fb)
  }

  predicate OnlyCond(e: State, t: State) { t == e.(flags := e.flags.(cond := t.flags.cond)) }

  // ---------------------------------------------------------------- decoding

  lemma FlagDecodes(sel: bv16, b: Position)
    requires sel < 16
    ensures var op := I.FlagCode(sel, b);
            !IsBranch(op) && High(op) == 0 && Selector(op) == sel && Argument(op) == b && op & 0x1000 == 0
  {
  }

  lemma BitIs(op: bv16, b: Position)
    requires Argument(op) == b
    ensures BitOf(op) == Single(b)
  {
  }

  lemma FlagExecutes(chip: Chip, e: State, op: bv16)
    requires !IsBranch(op) && High(op) == 0
    ensures Execute(chip, e, op) == FlagOp(e, op)
  {
    hide FlagOp, KeyScan, Control, ExecuteAlu, IsBranch, High;
  }

  /** A flag instruction changes fA, fB, KR and COND, to the bits computed. */
  lemma FlagDoes(chip: Chip, e: State, sel: bv16, b: Position)
    requires sel < 16
    ensures var op := I.FlagCode(sel, b);
            var r := FlagBits(Bits(e.fa, e.fb, e.kr, e.flags.cond), e.regs.r5, op);
            && !IsBranch(op)
            && Execute(chip, e, op) == e.(fa := r.fa, fb := r.fb, kr := r.kr, flags := e.flags.(cond := r.cond))
  {
    hide FlagBits, IsBranch, High, I.FlagCode, Execute, Argument;
    FlagDecodes(sel, b);
    FlagExecutes(chip, e, I.FlagCode(sel, b));
  }

  function Selector(op: bv16): bv16 { op & 0x000F }

  /** The word of one bit. */
  function Single(b: Position): bv16 { 1 << b }

  /** The sixteen operations. */
  predicate FlagSays(b: Core.Bits, r5: Byte, sel: bv16, bit: bv16, r: Core.Bits) {
    var differ := Differ(b.fa, b.fb, bit);
    && (sel == 0x0 ==> r == b.(cond := b.cond && !HasBit(b.fa, bit)))
    && (sel == 0x1 ==> r == b.(fa := WithBit(b.fa, bit)))
    && (sel == 0x2 ==> r == b.(fa := WithoutBit(b.fa, bit)))
    && (sel == 0x3 ==> r == b.(fa := Flipped(b.fa, bit)))
    && (sel == 0x4 ==> r == b.(fa := Flipped(b.fa, differ), fb := Flipped(b.fb, differ)))
    && (sel == 0x5 ==> r == b.(kr := WithBit(b.kr, bit)))
    && (sel == 0x6 ==> r == b.(fa := Flipped(b.fa, differ)))
    && (sel == 0x7 ==> r == b.(fa := WithNibble(b.fa, r5)))
    && (sel == 0x8 ==> r == b.(cond := b.cond && !HasBit(b.fb, bit)))
    && (sel == 0x9 ==> r == b.(fb := WithBit(b.fb, bit)))
    && (sel == 0xA ==> r == b.(fb := WithoutBit(b.fb, bit)))
    && (sel == 0xB ==> r == b.(fb := Flipped(b.fb, bit)))
    && (sel == 0xC ==> r == b.(cond := b.cond && differ != 0))
    && (sel == 0xD ==> r == b.(kr := WithoutBit(b.kr, bit)))
    && (sel == 0xE ==> r == b.(fb := Flipped(b.fb, differ)))
    && (sel == 0xF ==> r == b.(fb := WithNibble(b.fb, r5)))
  }

  lemma FlagCases(b: Core.Bits, r5: Byte, op: bv16, sel: bv16)
    requires Selector(op) == sel && sel < 16
    ensures FlagSays(b, r5, sel, BitOf(op), FlagBits(b, r5, op))
  {
    hide BitOf, HasBit, WithBit, WithoutBit, Flipped, Differ, WithNibble;
  }

  // ---------------------------------------------------------------- one bit

  lemma HasIs(x: bv16, b: Position)
    ensures HasBit(x, Single(b)) <==> On(x, b)
  {
  }

  lemma WithIs(x: bv16, b: Position, k: Position)
    ensures On(WithBit(x, Single(b)), k) <==> k == b || On(x, k)
  {
  }

  lemma WithoutIs(x: bv16, b: Position, k: Position)
    ensures On(WithoutBit(x, Single(b)), k) <==> k != b && On(x, k)
  {
  }

  lemma FlippedIs(x: bv16, b: Position, k: Position)
    ensures On(Flipped(x, Single(b)), k) <==> (k == b) != On(x, k)
  {
  }

  lemma DifferIs(a: bv16, c: bv16, b: Position)
    ensures Differ(a, c, Single(b)) == if On(a, b) != On(c, b) then Single(b) else 0
  {
  }

  lemma FlippedNothing(x: bv16)
    ensures Flipped(x, 0) == x
  {
  }

  // ---------------------------------------------------------------- the instructions

  lemma NoBranch(i: I.Instruction)
    requires !i.Jump?
    ensures !IsBranch(I.Opcode(i))
  {
    ClassBits(i);
    hide I.Opcode;
  }

  lemma ClassBits(i: I.Instruction)
    requires !i.Jump?
    ensures I.Opcode(i) & 0x1000 == 0
  {
    hide I.ScanCode, I.ComputeCode, I.JumpCode, I.BitCode, I.PlainCode, I.PeripheralCode, I.LatchCode, I.LibraryCode;
    match i
    case Compute(form, field, target) => ComputeBits(form, field, target);
    case Scan(all, lines) => ScanBits(all, lines);
    case Bit(op) => BitClass(op);
    case Plain(op) => PlainClass(op);
    case Outside(op) => PeripheralClass(op);
    case Latch(op) => LatchClass(op);
    case Module(op) => LibraryClass(op);
  }

  lemma BitClass(op: I.BitOp)
    ensures I.BitCode(op) & 0x1000 == 0
  {
    Codes();
    hide I.FlagCode, I.ControlCode;
  }

  lemma PlainClass(op: I.PlainOp)
    ensures I.PlainCode(op) & 0x1000 == 0
  {
    Codes();
    hide I.FlagCode, I.ControlCode;
  }

  lemma PeripheralClass(op: I.PeripheralOp)
    ensures I.PeripheralCode(op) & 0x1000 == 0
  {
    Codes();
    hide I.FlagCode, I.ControlCode;
  }

  lemma LatchClass(op: I.LatchOp)
    ensures I.LatchCode(op) & 0x1000 == 0
  {
    Codes();
    hide I.FlagCode, I.ControlCode;
  }

  lemma LibraryClass(op: I.LibraryOp)
    ensures I.LibraryCode(op) & 0x1000 == 0
  {
    Codes();
    hide I.FlagCode, I.ControlCode;
  }

  lemma Codes()
    ensures forall sel: bv16, b: Position :: sel < 16 ==> I.FlagCode(sel, b) & 0x1000 == 0
    ensures forall sel: bv16, b: Position :: sel < 16 ==> I.ControlCode(sel, b) & 0x1000 == 0
  {
    forall sel: bv16, b: Position | sel < 16 ensures I.FlagCode(sel, b) & 0x1000 == 0 && I.ControlCode(sel, b) & 0x1000 == 0 {
      FlagDecodes(sel, b);
      ControlBits(sel, b);
    }
  }

  lemma ComputeBits(form: I.Form, field: I.Field, target: I.Target)
    ensures I.ComputeCode(form, field, target) & 0x1000 == 0
  {
    assert I.FieldCode(field) & 0x1000 == 0 && I.FormCode(form) & 0x1000 == 0 && I.TargetCode(target) & 0x1000 == 0;
    hide I.FieldCode, I.FormCode, I.TargetCode;
  }

  lemma ScanBits(all: bool, lines: I.Lines)
    ensures I.ScanCode(all, lines) & 0x1000 == 0
  {
  }

  lemma ControlBits(sel: bv16, arg: Position)
    requires sel < 16
    ensures I.ControlCode(sel, arg) & 0x1000 == 0
  {
  }

  /** What an instruction other than a branch does once its cycle has begun. */
  function Work(chip: Chip, e: State, i: I.Instruction): State
    requires !i.Jump?
  {
    NoBranch(i);
    Execute(chip, e, I.Opcode(i))
  }

  /** What the selector picks, and that nothing else changes. */
  lemma FlagIs(chip: Chip, e: State, sel: bv16, b: Position)
    requires sel < 16
    ensures var op := I.FlagCode(sel, b);
            && !IsBranch(op)
            && FlagSays(Core.Bits(e.fa, e.fb, e.kr, e.flags.cond), e.regs.r5, sel, Single(b), FlagBits(Core.Bits(e.fa, e.fb, e.kr, e.flags.cond), e.regs.r5, op))
            && FlagWrites(e, FlagBits(Core.Bits(e.fa, e.fb, e.kr, e.flags.cond), e.regs.r5, op), Execute(chip, e, op))
  {
    hide I.FlagCode, Execute, FlagBits, BitOf, Argument, High, IsBranch, Selector, Single, FlagSays;
    FlagDoes(chip, e, sel, b);
    FlagDecodes(sel, b);
    BitIs(I.FlagCode(sel, b), b);
    FlagCases(Core.Bits(e.fa, e.fb, e.kr, e.flags.cond), e.regs.r5, I.FlagCode(sel, b), sel);
  }

  predicate FlagWrites(e: State, r: Core.Bits, t: State) {
    t == e.(fa := r.fa, fb := r.fb, kr := r.kr, flags := e.flags.(cond := r.cond))
  }

  lemma WorkIs(chip: Chip, e: State, i: I.Instruction)
    requires !i.Jump?
    ensures !IsBranch(I.Opcode(i)) && Work(chip, e, i) == Execute(chip, e, I.Opcode(i))
  {
    hide I.Opcode, Execute, IsBranch;
    NoBranch(i);
  }

  /** TST: a bit that is on clears COND. */
  lemma TestFlagDoes(chip: Chip, e: State, f: I.FlagReg, b: Position)
    ensures var t := Work(chip, e, I.Bit(I.TestFlag(f, b)));
            OnlyCond(e, t) && t.flags.cond == (e.flags.cond && !On(Register(e, f), b))
  {
    hide I.FlagCode, On, Work, Execute, FlagBits, Single, WithBit, WithoutBit, Flipped, HasBit, Differ, IsBranch, WithNibble;
    var op := I.FlagCode(if f == I.FA then 0x0 else 0x8, b);
    WorkIs(chip, e, I.Bit(I.TestFlag(f, b)));
    assert I.Opcode(I.Bit(I.TestFlag(f, b))) == op;
    if f == I.FA {
      FlagIs(chip, e, 0x0, b);
    } else {
      FlagIs(chip, e, 0x8, b);
    }
    HasIs(Register(e, f), b);
  }

  /** SET. */
  lemma SetFlagDoes(chip: Chip, e: State, f: I.FlagReg, b: Position, k: Position)
    ensures var t := Work(chip, e, I.Bit(I.SetFlag(f, b)));
            OnlyFlags(e, t, f) && (On(Register(t, f), k) <==> k == b || On(Register(e, f), k))
  {
    hide I.FlagCode, On, Work, Execute, FlagBits, Single, WithBit, WithoutBit, Flipped, HasBit, Differ, IsBranch, WithNibble;
    var op := I.FlagCode(if f == I.FA then 0x1 else 0x9, b);
    WorkIs(chip, e, I.Bit(I.SetFlag(f, b)));
    assert I.Opcode(I.Bit(I.SetFlag(f, b))) == op;
    if f == I.FA {
      FlagIs(chip, e, 0x1, b);
    } else {
      FlagIs(chip, e, 0x9, b);
    }
    WithIs(Register(e, f), b, k);
  }

  /** CLR. */
  lemma ClearFlagDoes(chip: Chip, e: State, f: I.FlagReg, b: Position, k: Position)
    ensures var t := Work(chip, e, I.Bit(I.ClearFlag(f, b)));
            OnlyFlags(e, t, f) && (On(Register(t, f), k) <==> k != b && On(Register(e, f), k))
  {
    hide I.FlagCode, On, Work, Execute, FlagBits, Single, WithBit, WithoutBit, Flipped, HasBit, Differ, IsBranch, WithNibble;
    var op := I.FlagCode(if f == I.FA then 0x2 else 0xA, b);
    WorkIs(chip, e, I.Bit(I.ClearFlag(f, b)));
    assert I.Opcode(I.Bit(I.ClearFlag(f, b))) == op;
    if f == I.FA {
      FlagIs(chip, e, 0x2, b);
    } else {
      FlagIs(chip, e, 0xA, b);
    }
    WithoutIs(Register(e, f), b, k);
  }

  /** INV. */
  lemma InvertFlagDoes(chip: Chip, e: State, f: I.FlagReg, b: Position, k: Position)
    ensures var t := Work(chip, e, I.Bit(I.InvertFlag(f, b)));
            OnlyFlags(e, t, f) && (On(Register(t, f), k) <==> (k == b) != On(Register(e, f), k))
  {
    hide I.FlagCode, On, Work, Execute, FlagBits, Single, WithBit, WithoutBit, Flipped, HasBit, Differ, IsBranch, WithNibble;
    var op := I.FlagCode(if f == I.FA then 0x3 else 0xB, b);
    WorkIs(chip, e, I.Bit(I.InvertFlag(f, b)));
    assert I.Opcode(I.Bit(I.InvertFlag(f, b))) == op;
    if f == I.FA {
      FlagIs(chip, e, 0x3, b);
    } else {
      FlagIs(chip, e, 0xB, b);
    }
    FlippedIs(Register(e, f), b, k);
  }

  /** XCH: the bit changes places. */
  lemma SwapFlagsDoes(chip: Chip, e: State, b: Position, k: Position)
    ensures var t := Work(chip, e, I.Bit(I.SwapFlags(b)));
            t == e.(fa := t.fa, fb := t.fb)
            && (On(t.fa, k) <==> On(if k == b then e.fb else e.fa, k)) && (On(t.fb, k) <==> On(if k == b then e.fa else e.fb, k))
  {
    hide I.FlagCode, On, Work, Execute, FlagBits, Single, WithBit, WithoutBit, Flipped, HasBit, Differ, IsBranch, WithNibble;
    var op := I.FlagCode(0x4, b);
    WorkIs(chip, e, I.Bit(I.SwapFlags(b)));
    assert I.Opcode(I.Bit(I.SwapFlags(b))) == op;
    FlagIs(chip, e, 0x4, b);
    DifferIs(e.fa, e.fb, b);
    FlippedIs(e.fa, b, k);
    FlippedIs(e.fb, b, k);
    FlippedNothing(e.fa);
    FlippedNothing(e.fb);
  }

  /** MOV: the bit of the other register is copied into this one. */
  lemma CopyFlagDoes(chip: Chip, e: State, f: I.FlagReg, b: Position, k: Position)
    ensures var t := Work(chip, e, I.Bit(I.CopyFlag(f, b)));
            OnlyFlags(e, t, f)
            && (On(Register(t, f), k) <==> On(if k == b then Register(e, Other(f)) else Register(e, f), k))
  {
    hide I.FlagCode, On, Work, Execute, FlagBits, Single, WithBit, WithoutBit, Flipped, HasBit, Differ, IsBranch, WithNibble;
    var op := I.FlagCode(if f == I.FA then 0x6 else 0xE, b);
    WorkIs(chip, e, I.Bit(I.CopyFlag(f, b)));
    assert I.Opcode(I.Bit(I.CopyFlag(f, b))) == op;
    if f == I.FA {
      FlagIs(chip, e, 0x6, b);
    } else {
      FlagIs(chip, e, 0xE, b);
    }
    DifferIs(e.fa, e.fb, b);
    FlippedIs(Register(e, f), b, k);
    FlippedNothing(Register(e, f));
  }

  /** CMP: equal bits clear COND. */
  lemma CompareFlagsDoes(chip: Chip, e: State, b: Position)
    ensures var t := Work(chip, e, I.Bit(I.CompareFlags(b)));
            OnlyCond(e, t) && t.flags.cond == (e.flags.cond && On(e.fa, b) != On(e.fb, b))
  {
    hide I.FlagCode, On, Work, Execute, FlagBits, Single, WithBit, WithoutBit, Flipped, HasBit, Differ, IsBranch, WithNibble;
    var op := I.FlagCode(0xC, b);
    WorkIs(chip, e, I.Bit(I.CompareFlags(b)));
    assert I.Opcode(I.Bit(I.CompareFlags(b))) == op;
    FlagIs(chip, e, 0xC, b);
    DifferIs(e.fa, e.fb, b);
    OneBit(b, b);
    BitIsSome(b);
  }

  /** SET KR. */
  lemma SetKeyBitDoes(chip: Chip, e: State, b: Position, k: Position)
    ensures var t := Work(chip, e, I.Bit(I.SetKeyBit(b)));
            t == e.(kr := t.kr) && (On(t.kr, k) <==> k == b || On(e.kr, k))
  {
    hide I.FlagCode, On, Work, Execute, FlagBits, Single, WithBit, WithoutBit, Flipped, HasBit, Differ, IsBranch, WithNibble;
    var op := I.FlagCode(0x5, b);
    WorkIs(chip, e, I.Bit(I.SetKeyBit(b)));
    assert I.Opcode(I.Bit(I.SetKeyBit(b))) == op;
    FlagIs(chip, e, 0x5, b);
    WithIs(e.kr, b, k);
  }

  /** CLR KR. */
  lemma ClearKeyBitDoes(chip: Chip, e: State, b: Position, k: Position)
    ensures var t := Work(chip, e, I.Bit(I.ClearKeyBit(b)));
            t == e.(kr := t.kr) && (On(t.kr, k) <==> k != b && On(e.kr, k))
  {
    hide I.FlagCode, On, Work, Execute, FlagBits, Single, WithBit, WithoutBit, Flipped, HasBit, Differ, IsBranch, WithNibble;
    var op := I.FlagCode(0xD, b);
    WorkIs(chip, e, I.Bit(I.ClearKeyBit(b)));
    assert I.Opcode(I.Bit(I.ClearKeyBit(b))) == op;
    FlagIs(chip, e, 0xD, b);
    WithoutIs(e.kr, b, k);
  }

  /** MOV fA[1..4],R5: the digit's four bits, lowest first. */
  lemma FlagsFromR5Does(chip: Chip, e: State, f: I.FlagReg, k: Position)
    ensures var t := Work(chip, e, I.Bit(I.FlagsFromR5(f)));
            OnlyFlags(e, t, f)
            && (On(Register(t, f), k) <==> if 1 <= k <= 4 then BitOfDigit(e.regs.r5 % 16, k - 1) else On(Register(e, f), k))
  {
    hide I.FlagCode, On, Work, Execute, FlagBits, Single, WithBit, WithoutBit, Flipped, HasBit, Differ, IsBranch, WithNibble;
    var op := I.FlagCode(if f == I.FA then 0x7 else 0xF, 0);
    WorkIs(chip, e, I.Bit(I.FlagsFromR5(f)));
    assert I.Opcode(I.Bit(I.FlagsFromR5(f))) == op;
    if f == I.FA {
      FlagIs(chip, e, 0x7, 0);
    } else {
      FlagIs(chip, e, 0xF, 0);
    }
    NibbleIs(Register(e, f), e.regs.r5, k);
    hide BitOfDigit;
  }

  function Other(f: I.FlagReg): I.FlagReg { if f == I.FA then I.FB else I.FA }

  lemma BitIsSome(b: Position)
    ensures Single(b) != 0
  {
  }

  /** Bit `k` of a digit, as a number. */
  predicate BitOfDigit(n: nat, k: bv16) {
    (if k == 0 then n else if k == 1 then n / 2 else if k == 2 then n / 4 else n / 8) % 2 == 1
  }

  /** A digit as a word has the digit's bits. */
  lemma DigitBits(n: Nibble, k: Position)
    ensures On(n as bv16, k) <==> k < 4 && BitOfDigit(n, k)
  {
    if n < 8 {
      LowDigitBits(n, k);
    } else {
      HighDigitBits(n, k);
    }
  }

  lemma LowDigitBits(n: Nibble, k: Position)
    requires n < 8
    ensures On(n as bv16, k) <==> k < 4 && BitOfDigit(n, k)
  {
    assert n == 0 || n == 1 || n == 2 || n == 3 || n == 4 || n == 5 || n == 6 || n == 7;
  }

  lemma HighDigitBits(n: Nibble, k: Position)
    requires n >= 8
    ensures On(n as bv16, k) <==> k < 4 && BitOfDigit(n, k)
  {
    assert n == 8 || n == 9 || n == 10 || n == 11 || n == 12 || n == 13 || n == 14 || n == 15;
  }

  lemma NibbleIs(x: bv16, r5: Byte, k: Position)
    ensures On(WithNibble(x, r5), k) <==> if 1 <= k <= 4 then BitOfDigit(r5 % 16, k - 1) else On(x, k)
  {
    var n := r5 % 16;
    var w := n as bv16;
    DigitBits(n, if 1 <= k then k - 1 else 0);
    DigitFits(n);
    PutNibble(x, w, k);
    assert WithNibble(x, r5) == (x & 0xFFE1) | (w << 1);
    hide WithNibble, BitOfDigit, On;
  }

  lemma DigitFits(n: Nibble)
    ensures n as bv16 < 16
  {
    assert n == 0 || n == 1 || n == 2 || n == 3 || n == 4 || n == 5 || n == 6 || n == 7
        || n == 8 || n == 9 || n == 10 || n == 11 || n == 12 || n == 13 || n == 14 || n == 15;
  }

  lemma PutNibble(x: bv16, w: bv16, k: Position)
    requires w < 16
    ensures On((x & 0xFFE1) | (w << 1), k) <==> if 1 <= k <= 4 then On(w, k - 1) else On(x, k)
  {
  }
}
