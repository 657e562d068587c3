/** What the key, card, printer, library and memory-latch instructions do with KR, EXT and the IO bus. */
module PeripheralEffects {
  import opened Words
  import opened Bits
  import opened Core
  import opened FlagEffects
  import opened ControlEffects
  import I = InstructionSet

  /** MOV R5,KR[4..7]. */
  lemma KeyToR5Does(chip: Chip, e: State)
    ensures Work(chip, e, I.Outside(I.KeyToR5)) == e.(regs := e.regs.(r5 := DigitAt(e.kr, 4)))
  {
    hide I.ControlCode, Work, Execute, IsBranch, DigitAt, KeyNibble;
    WorkIs(chip, e, I.Outside(I.KeyToR5));
    PeripheralIs(chip, e, 0x0);
    KeyDigit(e.kr);
  }

  lemma KeyDigit(kr: bv16)
    ensures KeyNibble(kr) == DigitAt(kr, 4)
  {
    NibbleOf(kr, 4);
    hide DigitAt;
  }

  /** MOV KR[4..7],R5, for a decimal or hexadecimal digit in R5. */
  lemma R5ToKeyDoes(chip: Chip, e: State, k: Position)
    requires e.regs.r5 < 16
    ensures var t := Work(chip, e, I.Outside(I.R5ToKey));
            t == e.(kr := t.kr) && (On(t.kr, k) <==> if 4 <= k < 8 then BitOfDigit(e.regs.r5, k - 4) else On(e.kr, k))
  {
    hide I.ControlCode, Work, Execute, IsBranch, On, WithKeyNibble, BitOfDigit;
    WorkIs(chip, e, I.Outside(I.R5ToKey));
    PeripheralIs(chip, e, 0x1);
    KeyNibbleIs(e.kr, e.regs.r5, k);
  }

  lemma KeyNibbleIs(kr: bv16, n: Nibble, k: Position)
    ensures On(WithKeyNibble(kr, n), k) <==> if 4 <= k < 8 then BitOfDigit(n, k - 4) else On(kr, k)
  {
    DigitBits(n, if 4 <= k then k - 4 else 0);
    DigitFits(n);
    PutKeyNibble(kr, n as bv16, k);
    assert WithKeyNibble(kr, n) == (kr & 0xFF0F) | ((n as bv16) << 4);
    hide WithKeyNibble, BitOfDigit, On;
  }

  lemma PutKeyNibble(kr: bv16, w: bv16, k: Position)
    requires w < 16
    ensures On((kr & 0xFF0F) | (w << 4), k) <==> if 4 <= k < 8 then On(w, k - 4) else On(kr, k)
  {
  }

  // ---------------------------------------------------------------- bytes

  /** Bit `k` of a byte. */
  predicate BitOn(b: bv8, k: bv8)
    requires k < 8
  {
    (b >> k) & 1 == 1
  }

  lemma BusBits(b: bv8, k: Position)
    ensures On(OnBus(b), k) <==> 4 <= k < 12 && BitOn(b, (k - 4) as bv8)
  {
  }

  lemma KeyBits(kr: bv16, k: bv8)
    requires k < 8
    ensures BitOn(KeyByte(kr), k) <==> On(kr, k as bv16 + 4)
  {
  }

  /** IN CRD: the next byte of a read pass in EXT bits 4 to 11, nothing outside one. */
  lemma InCardDoes(chip: Chip, e: State, k: Position)
    ensures var t := Work(chip, e, I.Outside(I.InCard));
            var c := e.card;
            var feeds := c.present && c.mode == Reading && c.ptr < BANK_BYTES;
            && t == e.(ext := t.ext, flags := e.flags.(extValid := true), card := if feeds then c.(ptr := c.ptr + 1) else c)
            && (On(t.ext, k) <==> feeds && 4 <= k < 12 && BitOn(c.bank[c.ptr], (k - 4) as bv8))
  {
    hide I.ControlCode, Work, Execute, IsBranch, On, OnBus, BitOn;
    WorkIs(chip, e, I.Outside(I.InCard));
    PeripheralIs(chip, e, 0x2);
    NoBits(k);
    if e.card.ptr < BANK_BYTES {
      BusBits(e.card.bank[e.card.ptr], k);
    }
  }

  lemma NoBits(k: Position)
    ensures !On(0, k)
  {
  }

  /** OUT CRD: KR bits 4 to 11 are the next byte of a write pass. */
  lemma OutCardDoes(chip: Chip, e: State, k: bv8)
    requires k < 8
    ensures var t := Work(chip, e, I.Outside(I.OutCard));
            var c := e.card;
            if c.present && c.mode == Writing && c.ptr < BANK_BYTES then
              && t == e.(card := c.(bank := t.card.bank, ptr := c.ptr + 1))
              && t.card.bank == c.bank[c.ptr := t.card.bank[c.ptr]] && (BitOn(t.card.bank[c.ptr], k) <==> On(e.kr, k as bv16 + 4))
            else t == e
  {
    hide I.ControlCode, Work, Execute, IsBranch, On, KeyByte, BitOn;
    WorkIs(chip, e, I.Outside(I.OutCard));
    PeripheralIs(chip, e, 0x3);
    KeyBits(e.kr, k);
  }

  lemma CodeBits(kr: bv16, k: bv8)
    requires k < 8
    ensures BitOn(PrintCode(kr), k) <==> k < 6 && On(kr, k as bv16 + 4)
    ensures BitOn(MnemonicCode(kr), k) <==> k < 7 && On(kr, k as bv16 + 4)
  {
  }

  /** OUT PRT: the character KR bits 4 to 9 name enters the next of twenty places. */
  lemma OutPrintDoes(chip: Chip, e: State, code: bv8)
    requires e.prn.ready && forall k: bv8 :: k < 8 ==> (BitOn(code, k) <==> k < 6 && On(e.kr, k as bv16 + 4))
    ensures var p := e.prn;
            Work(chip, e, I.Outside(I.OutPrint))
            == e.(prn := p.(buf := p.buf[p.ptr % 20 := chip.glyph(code)], codes := p.codes[p.ptr % 20 := code], ptr := p.ptr % 20 + 1))
  {
    hide I.ControlCode, Work, Execute, IsBranch, On, PrintCode, BitOn;
    WorkIs(chip, e, I.Outside(I.OutPrint));
    PeripheralIs(chip, e, 0x6);
    forall k: bv8 | k < 8 ensures BitOn(code, k) == BitOn(PrintCode(e.kr), k) {
      CodeBits(e.kr, k);
    }
    SameByte(code, PrintCode(e.kr));
  }

  lemma SameByte(a: bv8, b: bv8)
    requires forall k: bv8 :: k < 8 ==> BitOn(a, k) == BitOn(b, k)
    ensures a == b
  {
    assert BitOn(a, 0) == BitOn(b, 0) && BitOn(a, 1) == BitOn(b, 1) && BitOn(a, 2) == BitOn(b, 2) && BitOn(a, 3) == BitOn(b, 3);
    assert BitOn(a, 4) == BitOn(b, 4) && BitOn(a, 5) == BitOn(b, 5) && BitOn(a, 6) == BitOn(b, 6) && BitOn(a, 7) == BitOn(b, 7);
  }

  /** OUT PRT_FUNC: the mnemonic KR bits 4 to 10 name. */
  lemma OutMnemonicDoes(chip: Chip, e: State, code: bv8)
    requires e.prn.ready && forall k: bv8 :: k < 8 ==> (BitOn(code, k) <==> k < 7 && On(e.kr, k as bv16 + 4))
    ensures Work(chip, e, I.Outside(I.OutMnemonic)) == e.(prn := PutMnemonic(chip, e.prn, chip.mnemonic(code)))
  {
    hide I.ControlCode, Work, Execute, IsBranch, On, MnemonicCode, BitOn, PutMnemonic;
    WorkIs(chip, e, I.Outside(I.OutMnemonic));
    PeripheralIs(chip, e, 0x7);
    forall k: bv8 | k < 8 ensures BitOn(code, k) == BitOn(MnemonicCode(e.kr), k) {
      CodeBits(e.kr, k);
    }
    SameByte(code, MnemonicCode(e.kr));
  }

  /** RAM_OP. */
  lemma RamOpDoes(chip: Chip, e: State)
    ensures Work(chip, e, I.Outside(I.RamOp)) == e.(flags := e.flags.(ramOp := true))
  {
    hide I.ControlCode, Work, Execute, IsBranch;
    WorkIs(chip, e, I.Outside(I.RamOp));
    PeripheralIs(chip, e, 0xF);
  }

  // ---------------------------------------------------------------- memory latches

  /** MEMWR latches the RAM register the bus's lowest two digits name in hexadecimal, if there is one. */
  lemma MemWriteDoes(chip: Chip, e: State)
    requires e.regs.sout[0] < 16 && e.regs.sout[1] < 16
    ensures var n := 16 * e.regs.sout[1] + e.regs.sout[0];
            Work(chip, e, I.Latch(I.MemWrite)) ==
            e.(mem := e.mem.(ramAddr := n), flags := e.flags.(ramWrite := e.flags.ramWrite || n < chip.ramSize))
  {
    hide I.ControlCode, Work, Execute, Argument, IsBranch, Picks, Selector;
    WorkIs(chip, e, I.Latch(I.MemWrite));
    ControlIs(chip, e, 0x6, 7);
    PicksMemory(chip, e, 7, I.ControlCode(0x6, 7), Execute(chip, e, I.ControlCode(0x6, 7)));
  }

  lemma MemReadDoes(chip: Chip, e: State)
    requires e.regs.sout[0] < 16 && e.regs.sout[1] < 16
    ensures var n := 16 * e.regs.sout[1] + e.regs.sout[0];
            Work(chip, e, I.Latch(I.MemRead)) ==
            e.(mem := e.mem.(ramAddr := n), flags := e.flags.(ramRead := e.flags.ramRead || n < chip.ramSize))
  {
    hide I.ControlCode, Work, Execute, Argument, IsBranch, Picks, Selector;
    WorkIs(chip, e, I.Latch(I.MemRead));
    ControlIs(chip, e, 0x6, 8);
    PicksMemory(chip, e, 8, I.ControlCode(0x6, 8), Execute(chip, e, I.ControlCode(0x6, 8)));
  }

  lemma PicksStore(e: State, chip: Chip, arg: bv16, op: bv16, t: State)
    requires Picks(chip, e, 0xF, arg, op, t) && Argument(op) == arg && arg < 2
    ensures t == e.(mem := e.mem.(regAddr := e.regs.sout[0] % 16),
                    flags := e.flags.(store := e.flags.store || arg == 0, recall := e.flags.recall || arg == 1))
  {
    hide Argument, MemoryOrFlags, Peripheral, TestBusy, LibraryOp, PlainControl;
  }

  /** STO and RCL latch the SCOM register the bus's lowest digit names. */
  lemma StoreDoes(chip: Chip, e: State)
    ensures Work(chip, e, I.Latch(I.Store)) == e.(mem := e.mem.(regAddr := e.regs.sout[0] % 16), flags := e.flags.(store := true))
  {
    hide I.ControlCode, Work, Execute, Argument, IsBranch, Picks, Selector;
    WorkIs(chip, e, I.Latch(I.Store));
    ControlIs(chip, e, 0xF, 0);
    PicksStore(e, chip, 0, I.ControlCode(0xF, 0), Execute(chip, e, I.ControlCode(0xF, 0)));
  }

  lemma RecallDoes(chip: Chip, e: State)
    ensures Work(chip, e, I.Latch(I.Recall)) == e.(mem := e.mem.(regAddr := e.regs.sout[0] % 16), flags := e.flags.(recall := true))
  {
    hide I.ControlCode, Work, Execute, Argument, IsBranch, Picks, Selector;
    WorkIs(chip, e, I.Latch(I.Recall));
    ControlIs(chip, e, 0xF, 1);
    PicksStore(e, chip, 1, I.ControlCode(0xF, 1), Execute(chip, e, I.ControlCode(0xF, 1)));
  }

  // ---------------------------------------------------------------- the library

  predicate LibrarySays(chip: Chip, e: State, arg: bv16, t: State) {
    && (arg == 0 ==> t == Core.InLib(chip, e)) && (arg == 1 ==> t == Core.OutLibPC(e))
    && (arg == 2 ==> t == Core.InLibPC(e)) && (arg == 3 ==> t == Core.InLibHigh(chip, e))
  }

  lemma LibraryIs(chip: Chip, e: State, arg: Position)
    ensures var op := I.ControlCode(0xE, arg); !IsBranch(op) && LibrarySays(chip, e, arg, Execute(chip, e, op))
  {
    hide I.ControlCode, Execute, Argument, IsBranch, Selector, Picks, InLib, OutLibPC, InLibPC, InLibHigh;
    ControlIs(chip, e, 0xE, arg);
    PicksLibrary(chip, e, arg, I.ControlCode(0xE, arg), Execute(chip, e, I.ControlCode(0xE, arg)));
  }

  lemma PicksLibrary(chip: Chip, e: State, arg: bv16, op: bv16, t: State)
    requires Picks(chip, e, 0xE, arg, op, t) && Argument(op) == arg
    ensures LibrarySays(chip, e, arg, t)
  {
    hide Argument, MemoryOrFlags, Peripheral, TestBusy, StoreRecall, PlainControl, InLib, OutLibPC, InLibPC, InLibHigh;
  }

  /** IN LIB: the byte under the pointer in EXT bits 4 to 11, the pointer on; a fetch from the interpreter notes where. */
  lemma InLibDoes(chip: Chip, e: State, k: Position)
    ensures var t, l := Work(chip, e, I.Module(I.InLib)), e.lib;
            && t == e.(ext := t.ext, flags := e.flags.(extValid := true),
                       lib := l.(addr := (l.addr + 1) % 5000,
                                 execPC := if e.addr == (if chip.variant == TI58C then 0x0823 else 0x082F) then Some(l.addr) else l.execPC))
            && (On(t.ext, k) <==> 4 <= k < 12 && BitOn(chip.library(l.addr), (k - 4) as bv8))
  {
    hide I.ControlCode, Work, Execute, IsBranch, On, OnBus, BitOn;
    WorkIs(chip, e, I.Module(I.InLib));
    LibraryIs(chip, e, 0);
    BusBits(chip.library(e.lib.addr), k);
  }

  /** OUT LIB_PC: the pointer loses its last decimal digit and gets KR bits 4 to 7 as its first of four. */
  lemma OutLibPCDoes(chip: Chip, e: State)
    ensures var l := e.lib;
            Work(chip, e, I.Module(I.OutLibPC)) ==
            e.(lib := l.(addr := l.addr / 10 + 1000 * DigitAt(e.kr, 4), wasWriting := true,
                         readPos := ((if l.wasWriting then l.readPos else 0) + 1) % 4))
  {
    hide I.ControlCode, Work, Execute, IsBranch, DigitAt, PointerShifted;
    WorkIs(chip, e, I.Module(I.OutLibPC));
    LibraryIs(chip, e, 1);
    ShiftedIs(e.lib.addr, e.kr);
  }

  lemma ShiftedIs(addr: nat, kr: bv16)
    ensures PointerShifted(addr, kr) == addr / 10 + 1000 * DigitAt(kr, 4)
  {
    NibbleOf(kr, 4);
    hide DigitAt;
  }

  /** IN LIB_PC: the pointer's next decimal digit, lowest first, in EXT bits 4 to 7. */
  lemma InLibPCDoes(chip: Chip, e: State, k: Position)
    ensures var t, l := Work(chip, e, I.Module(I.InLibPC)), e.lib;
            var pos := if l.wasWriting then 0 else l.readPos;
            && t == e.(ext := t.ext, flags := e.flags.(extValid := true), lib := l.(readPos := (pos + 1) % 4, wasWriting := false))
            && (On(t.ext, k) <==> 4 <= k < 8 && BitOfDigit(DecimalDigit(l.addr, pos), k - 4))
  {
    hide I.ControlCode, Work, Execute, IsBranch, On, PointerDigit, BitOfDigit, DecimalDigit;
    WorkIs(chip, e, I.Module(I.InLibPC));
    LibraryIs(chip, e, 2);
    PointerDigitIs(e.lib.addr, if e.lib.wasWriting then 0 else e.lib.readPos, k);
  }

  /** A decimal digit of a number, the fourth from the third place on. */
  function DecimalDigit(n: nat, place: nat): nat {
    if place == 0 then n % 10 else if place == 1 then n / 10 % 10 else if place == 2 then n / 100 % 10 else n / 1000 % 10
  }

  lemma PointerDigitIs(addr: nat, pos: nat, k: Position)
    ensures On(PointerDigit(addr, pos), k) <==> 4 <= k < 8 && BitOfDigit(DecimalDigit(addr, pos), k - 4)
  {
    var n: Nibble := DecimalDigit(addr, pos);
    DigitBits(n, if 4 <= k then k - 4 else 0);
    DigitFits(n);
    UpFour(n as bv16, k);
    assert PointerDigit(addr, pos) == (n as bv16) << 4;
    hide PointerDigit, BitOfDigit, On, DecimalDigit;
  }

  lemma UpFour(w: bv16, k: Position)
    requires w < 16
    ensures On(w << 4, k) <==> 4 <= k < 8 && On(w, k - 4)
  {
  }

  /** IN LIB_HIGH: the upper half of the byte under the pointer, which stays. */
  lemma InLibHighDoes(chip: Chip, e: State, k: Position)
    ensures var t := Work(chip, e, I.Module(I.InLibHigh));
            && t == e.(ext := t.ext, flags := e.flags.(extValid := true))
            && (On(t.ext, k) <==> 4 <= k < 8 && BitOn(chip.library(e.lib.addr), k as bv8))
  {
    hide I.ControlCode, Work, Execute, IsBranch, On, HighNibble, BitOn;
    WorkIs(chip, e, I.Module(I.InLibHigh));
    LibraryIs(chip, e, 3);
    HighBits(chip.library(e.lib.addr), k);
  }

  lemma HighBits(b: bv8, k: Position)
    ensures On(HighNibble(b), k) <==> 4 <= k < 8 && BitOn(b, k as bv8)
  {
  }

  // ---------------------------------------------------------------- BUSY

  /** TST BUSY: bit 4 of the active row, which is also the card switch, or BUSY clears COND. */
  lemma TestBusyDoes(chip: Chip, e: State)
    ensures var seen := BitOn(e.key[e.digit], 4);
            Work(chip, e, I.Latch(I.TestBusy)) ==
            e.(card := e.card.(waiting := e.card.waiting || (!e.card.present && e.digit == chip.cardSwitchCol && seen)),
               polled := e.polled || (seen && !e.flags.busy),
               flags := e.flags.(cond := e.flags.cond && !seen && !e.flags.busy))
  {
    hide I.ControlCode, Work, Execute, Argument, IsBranch, Picks, Selector, SwitchSeen, BitOn;
    WorkIs(chip, e, I.Latch(I.TestBusy));
    ControlIs(chip, e, 0xB, 0);
    PicksBusy(chip, e, I.ControlCode(0xB, 0), Execute(chip, e, I.ControlCode(0xB, 0)));
    SeenIs(e.key[e.digit]);
  }

  lemma PicksBusy(chip: Chip, e: State, op: bv16, t: State)
    requires Picks(chip, e, 0xB, 0, op, t)
    ensures t == Core.TestBusy(chip, e)
  {
    hide MemoryOrFlags, Peripheral, TestBusy, LibraryOp, StoreRecall, PlainControl;
  }

  lemma SeenIs(row: bv8)
    ensures SwitchSeen(row) <==> BitOn(row, 4)
  {
  }

  /** The card switch is bit 4 of its row: pressed it is on, released it is off, every other line stays. */
  lemma SwitchIs(chip: Chip, key: KeyMatrix, row: nat, k: bv8)
    requires row < 16 && k < 8
    ensures var there := row == chip.cardSwitchCol && k == 4;
            && (BitOn(PressSwitch(chip, key)[row], k) <==> there || BitOn(key[row], k))
            && (BitOn(ReleaseSwitch(chip, key)[row], k) <==> !there && BitOn(key[row], k))
  {
    SwitchBits(key[row], k);
    hide BitOn;
  }

  lemma SwitchBits(line: bv8, k: bv8)
    requires k < 8
    ensures BitOn(line | CARD_SWITCH, k) <==> k == 4 || BitOn(line, k)
    ensures BitOn(line & !CARD_SWITCH, k) <==> k != 4 && BitOn(line, k)
  {
  }

  /** The bank a header byte names: a third of its low digit. */
  lemma BankIs(header: bv8)
    ensures var n := DigitAt(header as bv16, 0);
            BankOf(header) == if n < 12 then n / 3 else 4
  {
    var w := header as bv16 & 0x0F;
    NibbleOf(header as bv16, 0);
    BankOfWord(header, w);
    SmallWord(w);
    Thirds(w);
    hide DigitAt, BankOf;
  }

  lemma BankOfWord(header: bv8, w: bv16)
    requires w == header as bv16 & 0x0F
    ensures BankOf(header) == if w < 3 then 0 else if w < 6 then 1 else if w < 9 then 2 else if w < 12 then 3 else 4
  {
  }

  lemma Thirds(w: bv16)
    requires w < 16
    ensures (w < 3 <==> w as int < 3) && (w < 6 <==> w as int < 6) && (w < 9 <==> w as int < 9) && (w < 12 <==> w as int < 12)
  {
    assert w == 0 || w == 1 || w == 2 || w == 3 || w == 4 || w == 5 || w == 6 || w == 7
        || w == 8 || w == 9 || w == 10 || w == 11 || w == 12 || w == 13 || w == 14 || w == 15;
  }
}
