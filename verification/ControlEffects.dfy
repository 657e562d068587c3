/** What the control, key, library and memory-latch instructions do, digit by digit and bit by bit. */
module ControlEffects {
  import opened Words
  import opened Bits
  import opened Core
  import opened FlagEffects
  import CardReader
  import I = InstructionSet

  // ---------------------------------------------------------------- decoding

  lemma ControlDecodes(sel: bv16, arg: Position)
    requires sel < 16
    ensures var op := I.ControlCode(sel, arg);
            !IsBranch(op) && High(op) == 0x0A00 && Selector(op) == sel && Argument(op) == arg
  {
  }

  lemma ControlExecutes(chip: Chip, e: State, op: bv16)
    requires !IsBranch(op) && High(op) == 0x0A00
    ensures Execute(chip, e, op) == Control(chip, e, op)
  {
    hide FlagOp, KeyScan, Control, ExecuteAlu, IsBranch;
  }

  /** Which operation the selector and the argument pick. */
  predicate Picks(chip: Chip, e: State, sel: bv16, arg: bv16, op: bv16, t: State) {
    && (sel == 0x6 ==> t == MemoryOrFlags(chip, e, op))
    && (sel == 0x8 ==> t == Peripheral(chip, e, op))
    && (sel == 0xB ==> t == TestBusy(chip, e))
    && (sel == 0xE ==> t == LibraryOp(chip, e, op))
    && (sel == 0xF ==> t == StoreRecall(e, op))
    && (sel < 0x6 || sel == 0x7 || sel == 0x9 || sel == 0xA || sel == 0xC || sel == 0xD ==> t == PlainControl(e, op))
  }

  lemma ControlPicks(chip: Chip, e: State, op: bv16, sel: bv16)
    requires Selector(op) == sel
    ensures Picks(chip, e, sel, Argument(op), op, Control(chip, e, op))
  {
    hide MemoryOrFlags, Peripheral, TestBusy, LibraryOp, StoreRecall, PlainControl, Argument;
  }

  /** One control instruction, its work picked. */
  lemma ControlIs(chip: Chip, e: State, sel: bv16, arg: Position)
    requires sel < 16
    ensures var op := I.ControlCode(sel, arg);
            && !IsBranch(op) && Selector(op) == sel && Argument(op) == arg && Picks(chip, e, sel, arg, op, Execute(chip, e, op))
  {
    hide I.ControlCode, Execute, Control, High, IsBranch, Selector, Argument, Picks;
    var op := I.ControlCode(sel, arg);
    ControlDecodes(sel, arg);
    ControlExecutes(chip, e, op);
    ControlPicks(chip, e, op, sel);
  }

  // ---------------------------------------------------------------- plain ones

  lemma PlainPicks(e: State, op: bv16, sel: bv16)
    requires Selector(op) == sel
    ensures PlainSays(e, sel, op, PlainControl(e, op))
  {
    hide TestsKR, IncKR, OtherDigit, KeyFromExt, Argument;
  }

  predicate PlainSays(e: State, sel: bv16, op: bv16, t: State) {
    && (sel == 0x0 ==> t == e.(flags := e.flags.(hold := e.flags.hold || OtherDigit(e.digit, op))))
    && (sel == 0x1 ==> t == e.(flags := e.flags.(idle := false)))
    && (sel == 0x2 ==> t == e.(fa := 0))
    && (sel == 0x4 ==> t == e.(kr := IncKR(e.kr)))
    && (sel == 0x5 ==> t == e.(flags := e.flags.(cond := e.flags.cond && !TestsKR(e.kr, op))))
    && (sel == 0x7 ==> t == e.(regs := e.regs.(r5 := Argument(op) as Byte)))
    && (sel == 0x9 ==> t == e.(flags := e.flags.(idle := true)))
    && (sel == 0xA ==> t == e.(fb := 0))
    && (sel == 0xC ==> t == e.(kr := KeyFromExt(e.kr, e.ext)))
    && (sel == 0xD ==> t == e.(kr := e.sr, sr := e.kr))
  }

  lemma PlainIs(chip: Chip, e: State, sel: bv16, arg: Position)
    requires sel < 0x6 || sel == 0x7 || sel == 0x9 || sel == 0xA || sel == 0xC || sel == 0xD
    ensures var op := I.ControlCode(sel, arg);
            !IsBranch(op) && Argument(op) == arg && PlainSays(e, sel, op, Execute(chip, e, op))
  {
    hide I.ControlCode, Execute, IsBranch, Selector, Argument, PlainSays, PlainControl, MemoryOrFlags, Peripheral, TestBusy, LibraryOp,
         StoreRecall;
    ControlIs(chip, e, sel, arg);
    PlainPicks(e, I.ControlCode(sel, arg), sel);
  }

  /** WAIT Dn holds until the digit counter is there. */
  lemma WaitDigitDoes(chip: Chip, e: State, n: Nibble)
    requires n as bv16 < 16
    ensures Work(chip, e, I.Plain(I.WaitDigit(n as bv16))) == e.(flags := e.flags.(hold := e.flags.hold || e.digit != n))
  {
    hide I.ControlCode, Work, Execute, OtherDigit, IncKR, TestsKR, KeyFromExt, Argument, IsBranch;
    WorkIs(chip, e, I.Plain(I.WaitDigit(n as bv16)));
    PlainIs(chip, e, 0x0, n as bv16);
    OtherIs(e.digit, n, I.ControlCode(0x0, n as bv16));
  }

  lemma OtherIs(digit: Nibble, n: Nibble, op: bv16)
    requires Argument(op) == n as bv16
    ensures OtherDigit(digit, op) <==> digit != n
  {
    if digit != n {
      Apart(digit, n);
    }
    hide Argument;
  }

  lemma Apart(m: Nibble, n: Nibble)
    requires m != n
    ensures m as bv16 != n as bv16
  {
    BitsTellDigits(m, n);
    forall k: Position | k < 4 ensures On(m as bv16, k) == BitOfDigit(m, k) && On(n as bv16, k) == BitOfDigit(n, k) {
      DigitBits(m, k);
      DigitBits(n, k);
    }
    hide BitOfDigit, On;
  }

  lemma BitsTellDigits(m: Nibble, n: Nibble)
    requires m != n
    ensures exists k: Position :: k < 4 && BitOfDigit(m, k) != BitOfDigit(n, k)
  {
    if m % 2 != n % 2 {
      assert BitOfDigit(m, 0) != BitOfDigit(n, 0);
    } else if m / 2 % 2 != n / 2 % 2 {
      assert BitOfDigit(m, 1) != BitOfDigit(n, 1);
    } else if m / 4 % 2 != n / 4 % 2 {
      assert BitOfDigit(m, 2) != BitOfDigit(n, 2);
    } else {
      assert BitOfDigit(m, 3) != BitOfDigit(n, 3);
    }
  }

  /** CLR IDL. */
  lemma ClearIdleDoes(chip: Chip, e: State)
    ensures Work(chip, e, I.Plain(I.ClearIdle)) == e.(flags := e.flags.(idle := false))
  {
    hide I.ControlCode, Work, Execute, OtherDigit, IncKR, TestsKR, KeyFromExt, Argument, IsBranch;
    WorkIs(chip, e, I.Plain(I.ClearIdle));
    PlainIs(chip, e, 0x1, 0);
  }

  /** SET IDL. */
  lemma SetIdleDoes(chip: Chip, e: State)
    ensures Work(chip, e, I.Plain(I.SetIdle)) == e.(flags := e.flags.(idle := true))
  {
    hide I.ControlCode, Work, Execute, OtherDigit, IncKR, TestsKR, KeyFromExt, Argument, IsBranch;
    WorkIs(chip, e, I.Plain(I.SetIdle));
    PlainIs(chip, e, 0x9, 0);
  }

  /** A whole flag register cleared. */
  lemma ClearFlagsDoes(chip: Chip, e: State, f: I.FlagReg)
    ensures Work(chip, e, I.Plain(I.ClearFlags(f))) == if f == I.FA then e.(fa := 0) else e.(fb := 0)
  {
    hide I.ControlCode, Work, Execute, OtherDigit, IncKR, TestsKR, KeyFromExt, Argument, IsBranch;
    WorkIs(chip, e, I.Plain(I.ClearFlags(f)));
    if f == I.FA {
      PlainIs(chip, e, 0x2, 0);
    } else {
      PlainIs(chip, e, 0xA, 0);
    }
  }

  /** XCH KR,SR. */
  lemma SwapKeyDoes(chip: Chip, e: State)
    ensures Work(chip, e, I.Latch(I.SwapKey)) == e.(kr := e.sr, sr := e.kr)
  {
    hide I.ControlCode, Work, Execute, OtherDigit, IncKR, TestsKR, KeyFromExt, Argument, IsBranch;
    WorkIs(chip, e, I.Latch(I.SwapKey));
    PlainIs(chip, e, 0xD, 0);
  }

  /** TST KR: a bit that is on clears COND. */
  lemma TestKeyBitDoes(chip: Chip, e: State, b: Position)
    ensures Work(chip, e, I.Plain(I.TestKeyBit(b))) == e.(flags := e.flags.(cond := e.flags.cond && !On(e.kr, b)))
  {
    hide I.ControlCode, Work, Execute, OtherDigit, IncKR, TestsKR, KeyFromExt, Argument, IsBranch, On;
    WorkIs(chip, e, I.Plain(I.TestKeyBit(b)));
    PlainIs(chip, e, 0x5, b);
    TestsIs(e.kr, I.ControlCode(0x5, b), b);
  }

  lemma TestsIs(kr: bv16, op: bv16, b: Position)
    requires Argument(op) == b
    ensures TestsKR(kr, op) <==> On(kr, b)
  {
    hide Argument, On, Single, HasBit, BitOf;
    BitIs(op, b);
    HasIs(kr, b);
  }

  /** MOV R5,#n. */
  lemma LoadR5Does(chip: Chip, e: State, n: Nibble)
    requires n as bv16 < 16
    ensures Work(chip, e, I.Plain(I.LoadR5(n as bv16))) == e.(regs := e.regs.(r5 := n))
  {
    hide I.ControlCode, Work, Execute, OtherDigit, IncKR, TestsKR, KeyFromExt, Argument, IsBranch;
    WorkIs(chip, e, I.Plain(I.LoadR5(n as bv16)));
    PlainIs(chip, e, 0x7, n as bv16);
    Backwards(n);
  }

  lemma Backwards(n: Nibble)
    ensures (n as bv16) as int == n
  {
    assert n == 0 || n == 1 || n == 2 || n == 3 || n == 4 || n == 5 || n == 6 || n == 7
        || n == 8 || n == 9 || n == 10 || n == 11 || n == 12 || n == 13 || n == 14 || n == 15;
  }

  /** INC KR: the upper twelve bits count; on their wrap bit 0 toggles. Bits 1 to 3 stay. */
  lemma IncKeyDoes(chip: Chip, e: State)
    ensures var t := Work(chip, e, I.Plain(I.IncKey));
            && t == e.(kr := t.kr)
            && t.kr >> 4 == ((e.kr >> 4) + 1) & 0x0FFF
            && t.kr & 0x000E == e.kr & 0x000E && (On(t.kr, 0) <==> On(e.kr, 0) != (e.kr >> 4 == 0x0FFF))
  {
    hide I.ControlCode, Work, Execute, OtherDigit, IncKR, TestsKR, KeyFromExt, Argument, IsBranch, On;
    WorkIs(chip, e, I.Plain(I.IncKey));
    PlainIs(chip, e, 0x4, 0);
    Increments(e.kr);
  }

  lemma Increments(kr: bv16)
    ensures IncKR(kr) >> 4 == ((kr >> 4) + 1) & 0x0FFF
    ensures IncKR(kr) & 0x000E == kr & 0x000E && (On(IncKR(kr), 0) <==> On(kr, 0) != (kr >> 4 == 0x0FFF))
  {
  }

  /** MOV KR,EXT: EXT's bits join KR's lowest four. */
  lemma ExtToKeyDoes(chip: Chip, e: State, k: Position)
    ensures var t := Work(chip, e, I.Latch(I.ExtToKey));
            t == e.(kr := t.kr) && (On(t.kr, k) <==> On(e.ext, k) || (k < 4 && On(e.kr, k)))
  {
    hide I.ControlCode, Work, Execute, OtherDigit, IncKR, TestsKR, KeyFromExt, Argument, IsBranch, On;
    WorkIs(chip, e, I.Latch(I.ExtToKey));
    PlainIs(chip, e, 0xC, 0);
    FromExtIs(e.kr, e.ext, k);
  }

  lemma FromExtIs(kr: bv16, ext: bv16, k: Position)
    ensures On(KeyFromExt(kr, ext), k) <==> On(ext, k) || (k < 4 && On(kr, k))
  {
  }

  // ---------------------------------------------------------------- R5 and the flags, R5 and KR

  /** The digit four bits spell. */
  function Spelled(b0: bool, b1: bool, b2: bool, b3: bool): nat {
    (if b0 then 1 else 0) + (if b1 then 2 else 0) + (if b2 then 4 else 0) + (if b3 then 8 else 0)
  }

  /** Bits `from` to `from` + 3 of a word, as a digit. */
  function DigitAt(x: bv16, from: bv16): nat
    requires from < 13
  {
    Spelled(On(x, from), On(x, from + 1), On(x, from + 2), On(x, from + 3))
  }

  lemma SmallWord(w: bv16)
    requires w < 16
    ensures w as int == DigitAt(w, 0)
  {
    assert w == 0 || w == 1 || w == 2 || w == 3 || w == 4 || w == 5 || w == 6 || w == 7
        || w == 8 || w == 9 || w == 10 || w == 11 || w == 12 || w == 13 || w == 14 || w == 15;
  }

  lemma NibbleOf(x: bv16, from: bv16)
    requires from < 13
    ensures (x >> from) & 0x0F < 16 && ((x >> from) & 0x0F) as int == DigitAt(x, from)
  {
    var w := (x >> from) & 0x0F;
    assert w < 16;
    SmallWord(w);
    SameBits(x, from);
    hide On;
  }

  lemma SameBits(x: bv16, from: bv16)
    requires from < 13
    ensures var w := (x >> from) & 0x0F;
            On(w, 0) == On(x, from) && On(w, 1) == On(x, from + 1) && On(w, 2) == On(x, from + 2) && On(w, 3) == On(x, from + 3)
  {
  }

  /** MOV R5,fA[1..4] and MOV R5,fB[1..4]. */
  lemma FlagsToR5Does(chip: Chip, e: State, f: I.FlagReg)
    ensures Work(chip, e, I.Plain(I.FlagsToR5(f))) == e.(regs := e.regs.(r5 := DigitAt(Register(e, f), 1)))
  {
    hide I.ControlCode, Work, Execute, Argument, IsBranch, DigitAt, MemoryLatch, FlagNibble, Picks, Selector;
    var arg: Position := if f == I.FA then 0 else 1;
    var op := I.ControlCode(0x6, arg);
    WorkIs(chip, e, I.Plain(I.FlagsToR5(f)));
    ControlIs(chip, e, 0x6, arg);
    PicksMemory(chip, e, arg, op, Execute(chip, e, op));
    FlagDigit(op, e.fa, e.fb, f);
  }

  lemma PicksMemory(chip: Chip, e: State, arg: bv16, op: bv16, t: State)
    requires Picks(chip, e, 0x6, arg, op, t) && Argument(op) == arg
    ensures arg < 7 ==> t == e.(regs := e.regs.(r5 := FlagNibble(op, e.fa, e.fb)))
    ensures arg == 7 ==> t == MemoryLatch(chip, e, true)
    ensures arg == 8 ==> t == MemoryLatch(chip, e, false)
  {
    hide Argument, MemoryLatch, FlagNibble, Peripheral, TestBusy, LibraryOp, StoreRecall, PlainControl;
  }

  lemma FlagDigit(op: bv16, fa: bv16, fb: bv16, f: I.FlagReg)
    requires Argument(op) == if f == I.FA then 0 else 1
    ensures FlagNibble(op, fa, fb) == DigitAt(if f == I.FA then fa else fb, 1)
  {
    ArgumentBit(op);
    NibbleOf(if f == I.FA then fa else fb, 1);
    hide Argument, DigitAt;
  }

  lemma ArgumentBit(op: bv16)
    ensures Argument(op) == 0 ==> op & 0x0010 == 0
    ensures Argument(op) == 1 ==> op & 0x0010 != 0
  {
  }

  /** What the peripheral operations are. */
  predicate PeripheralSays(chip: Chip, e: State, arg: bv16, t: State) {
    && (arg == 0x0 ==> t == KeyToR5(e)) && (arg == 0x1 ==> t == R5ToKey(e))
    && (arg == 0x2 ==> t == Core.InCard(e)) && (arg == 0x3 ==> t == Core.OutCard(e)) && (arg == 0x4 ==> t == Core.CardOff(chip, e))
    && (arg == 0x5 ==> t == Core.CardRead(e)) && (arg == 0xC ==> t == Core.CardWrite(e))
    && (arg == 0x6 ==> t == Core.OutPrint(chip, e)) && (arg == 0x7 ==> t == OutPrintFunction(chip, e))
    && (arg == 0x8 ==> t == Core.PrintClear(e)) && (arg == 0x9 ==> t == Core.PrintStep(e)) && (arg == 0xA ==> t == Core.PrintLine(e))
    && (arg == 0xB ==> t == Core.PrintFeed(e)) && (arg == 0xF ==> t == ArmRamOp(e))
  }

  lemma PicksPeripheral(chip: Chip, e: State, arg: bv16, op: bv16, t: State)
    requires Picks(chip, e, 0x8, arg, op, t) && Argument(op) == arg
    ensures PeripheralSays(chip, e, arg, t)
  {
    hide Argument, KeyToR5, R5ToKey, InCard, OutCard, CardOff, CardRead, CardWrite, OutPrint, OutPrintFunction, PrintClear, PrintStep,
         PrintLine, PrintFeed, ArmRamOp, MemoryOrFlags, TestBusy, LibraryOp, StoreRecall, PlainControl;
  }

  lemma PeripheralIs(chip: Chip, e: State, arg: Position)
    ensures var op := I.ControlCode(0x8, arg); !IsBranch(op) && PeripheralSays(chip, e, arg, Execute(chip, e, op))
  {
    hide I.ControlCode, Execute, Argument, IsBranch, Picks, Selector, PeripheralSays;
    ControlIs(chip, e, 0x8, arg);
    PicksPeripheral(chip, e, arg, I.ControlCode(0x8, arg), Execute(chip, e, I.ControlCode(0x8, arg)));
  }
}
