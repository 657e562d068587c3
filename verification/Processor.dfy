/**
 The CPU with its state in place: registers and memory in arrays, flags and pointers in fields,
 the card reader and the printer as units of their own. Every instruction leaves exactly the
 state the state machine gives.
 */
module Processor {
  import opened Words
  import opened Alu
  import opened Core
  import opened UserMemory
  import opened Datapath
  import opened Peripherals
  import opened Execution
  import CardReader

  /** The fields of the CPU itself. */
  datatype Panel = Panel(
    kr: bv16, sr: bv16, fa: bv16, fb: bv16, ext: bv16, preg: bv16, idle: bool, hold: bool, jump: bool, extValid: bool,
    digit: Nibble, addr: bv16, lib: Library, polled: bool)

  function PanelOf(s: State): Panel {
    Panel(s.kr, s.sr, s.fa, s.fb, s.ext, s.preg, s.flags.idle, s.flags.hold, s.flags.jump, s.flags.extValid,
          s.digit, s.addr, s.lib, s.polled)
  }

  /** Registers, COND, memory and latches are as they were. */
  predicate SameInside(s: State, t: State) {
    t.regs == s.regs && t.flags.cond == s.flags.cond && ViewOf(t) == ViewOf(s)
  }

  /** The card reader, the printer and the keys are as they were. */
  predicate SameAround(s: State, t: State) {
    t.card == s.card && t.prn == s.prn && t.flags.busy == s.flags.busy && t.key == s.key
  }

  // ---------------------------------------------------------------- what each operation changes

  predicate Restores(p: Panel, opcode: bv16) { !IsBranch(opcode) && p.jump }

  lemma RestoreShape(s: State, opcode: bv16)
    ensures var t, p := Restore(s, opcode), PanelOf(s);
            && t.regs == s.regs && ViewOf(t) == ViewOf(s) && SameAround(s, t)
            && t.flags.cond == (s.flags.cond || Restores(p, opcode)) && PanelOf(t) == p.(jump := p.jump && !Restores(p, opcode))
  {
    hide IsBranch;
  }

  lemma EnterShape(s: State)
    ensures var t, p := Enter(s), PanelOf(s);
            && t.regs == s.regs.(sout := Io(ViewOf(s))) && ViewOf(t) == ViewOf(s).(bus := Io(ViewOf(s)), ioValid := false)
            && t.flags.cond == s.flags.cond && SameAround(s, t)
            && PanelOf(t) == p.(digit := if p.digit == 0 then 15 else p.digit - 1, polled := false,
                                ext := if p.extValid then p.ext else 0, hold := false, extValid := false)
  {
  }

  lemma BranchShape(s: State, opcode: bv16)
    ensures var t, p := Branch(s, opcode), PanelOf(s);
            && SameInside(s, t) && SameAround(s, t)
            && PanelOf(t) == p.(jump := true, addr := BranchTarget(s.flags.cond, p.addr, opcode))
  {
    hide BranchTarget;
  }

  /** The register bits a flag operation sees and sets. */
  function BitsOf(s: State): Bits { Bits(s.fa, s.fb, s.kr, s.flags.cond) }

  lemma FlagShape(s: State, opcode: bv16)
    ensures var t := FlagOp(s, opcode); t.regs == s.regs && ViewOf(t) == ViewOf(s) && SameAround(s, t)
  {
    hide FlagBits;
  }

  lemma FlagPanel(s: State, opcode: bv16)
    ensures var t, b := FlagOp(s, opcode), FlagBits(BitsOf(s), s.regs.r5, opcode);
            t.flags.cond == b.cond && PanelOf(t) == PanelOf(s).(fa := b.fa, fb := b.fb, kr := b.kr)
  {
    hide FlagBits;
  }

  /** A scan of all rows waits at every row but the last, and puts a key it finds into KR. */
  function Scanned(p: Panel, lines: bv8, all: bool): Panel {
    p.(polled := true, hold := p.hold || (all && lines == 0 && p.digit != 0),
       kr := if all && lines != 0 then KeyCode(p.digit, lines) else p.kr)
  }

  lemma ScanShape(s: State, opcode: bv16)
    ensures var t, p, k := KeyScan(s, opcode), PanelOf(s), PressedIn(s.key[s.digit], opcode);
            && t.regs == s.regs && ViewOf(t) == ViewOf(s) && SameAround(s, t) && t.flags.cond == (s.flags.cond && k == 0)
            && PanelOf(t) == Scanned(p, k, ScansAll(opcode))
  {
    hide KeyCode, PressedIn, ScansAll;
  }

  lemma RedirectShape(s: State)
    ensures var t, p := Redirect(s), PanelOf(s);
            && SameInside(s, t) && SameAround(s, t)
            && PanelOf(t) == p.(addr := NextAddr(p.hold, p.preg, p.addr), preg := if p.hold then p.preg else 0)
  {
    hide NextAddr;
  }

  lemma LatchPregShape(s: State)
    ensures var t, p := LatchPreg(s), PanelOf(s);
            && SameInside(s, t) && SameAround(s, t)
            && PanelOf(t) == p.(preg := LatchedPreg(p.kr, p.preg), kr := LatchTaken(p.kr))
  {
    hide LatchedPreg, LatchTaken;
  }

  lemma CountdownShape(s: State)
    ensures var t := Countdown(s);
            && SameInside(s, t) && t.card == s.card && t.key == s.key && PanelOf(t) == PanelOf(s)
            && t.prn == CountedDown(s.prn) && t.flags.busy == (s.flags.busy && s.prn.busyCycles != 1)
  {
    hide CountedDown;
  }

  lemma PlainShape(s: State, opcode: bv16)
    ensures var t := PlainControl(s, opcode); ViewOf(t) == ViewOf(s) && SameAround(s, t)
  {
    hide Argument, TestsKR, IncKR, OtherDigit, KeyFromExt;
  }

  lemma PlainInside(s: State, opcode: bv16)
    ensures var t, sel := PlainControl(s, opcode), opcode & 0x000F;
            && t.regs == (if sel == 0x7 then s.regs.(r5 := Argument(opcode) as Byte) else s.regs)
            && t.flags.cond == (s.flags.cond && !(sel == 0x5 && TestsKR(s.kr, opcode)))
  {
    hide Argument, TestsKR, IncKR, OtherDigit, KeyFromExt;
  }

  lemma PlainPanelIs(s: State, opcode: bv16)
    ensures PanelOf(PlainControl(s, opcode)) == PlainPanel(PanelOf(s), opcode)
  {
    hide Argument, TestsKR, IncKR, OtherDigit, KeyFromExt;
  }

  function PlainPanel(p: Panel, opcode: bv16): Panel {
    var sel := opcode & 0x000F;
    if sel == 0x0 then p.(hold := p.hold || OtherDigit(p.digit, opcode))
    else if sel == 0x1 then p.(idle := false)
    else if sel == 0x2 then p.(fa := 0)
    else if sel == 0x4 then p.(kr := IncKR(p.kr))
    else if sel == 0x9 then p.(idle := true)
    else if sel == 0xA then p.(fb := 0)
    else if sel == 0xC then p.(kr := KeyFromExt(p.kr, p.ext))
    else if sel == 0xD then p.(kr := p.sr, sr := p.kr)
    else p
  }

  /** An operation on the memory's latches alone. */
  predicate OnlyView(s: State, t: State) {
    t.regs == s.regs && t.flags.cond == s.flags.cond && SameAround(s, t) && PanelOf(t) == PanelOf(s)
  }

  lemma StoreRecallOnly(s: State, opcode: bv16)
    ensures OnlyView(s, StoreRecall(s, opcode))
  {
    hide PanelOf, SameAround, StoreRecall;
    StoreRecallAround(s, opcode);
    StoreRecallPanel(s, opcode);
  }

  lemma StoreRecallAround(s: State, opcode: bv16)
    ensures var t := StoreRecall(s, opcode); t.regs == s.regs && t.flags.cond == s.flags.cond && SameAround(s, t)
  {
    hide SameAround, StoreRecall;
    StoreRecallInside(s, opcode);
    StoreRecallOutside(s, opcode);
  }

  lemma StoreRecallInside(s: State, opcode: bv16)
    ensures var t := StoreRecall(s, opcode); t.regs == s.regs && t.flags.cond == s.flags.cond
  {
    hide Argument, RegisterNumber;
  }

  lemma StoreRecallOutside(s: State, opcode: bv16)
    ensures SameAround(s, StoreRecall(s, opcode))
  {
    hide Argument, RegisterNumber;
  }

  lemma StoreRecallPanel(s: State, opcode: bv16)
    ensures PanelOf(StoreRecall(s, opcode)) == PanelOf(s)
  {
    hide Argument, RegisterNumber;
  }

  lemma MemoryLatchOnly(chip: Chip, s: State, write: bool)
    ensures OnlyView(s, MemoryLatch(chip, s, write))
  {
    hide MemAddress;
  }

  lemma ArmRamOpOnly(s: State)
    ensures OnlyView(s, ArmRamOp(s)) && ViewOf(ArmRamOp(s)) == ViewOf(s).(opPending := true)
  {
  }

  /** R5 loaded, nothing else changed. */
  predicate OnlyR5(s: State, t: State, r5: Byte) {
    && t.regs == s.regs.(r5 := r5) && t.flags.cond == s.flags.cond && ViewOf(t) == ViewOf(s) && SameAround(s, t)
    && PanelOf(t) == PanelOf(s)
  }

  lemma PlainR5(s: State, opcode: bv16)
    requires opcode & 0x000F == 0x7
    ensures OnlyR5(s, PlainControl(s, opcode), Argument(opcode) as Byte)
  {
    hide Argument;
  }

  lemma KeyToR5Only(s: State)
    ensures OnlyR5(s, KeyToR5(s), KeyNibble(s.kr))
  {
    hide KeyNibble;
  }

  lemma R5ToKeyShape(s: State)
    ensures var t := R5ToKey(s);
            && SameInside(s, t) && SameAround(s, t)
            && PanelOf(t) == PanelOf(s).(kr := WithKeyNibble(s.kr, s.regs.r5))
  {
    hide WithKeyNibble;
  }

  lemma FlagsToR5(chip: Chip, s: State, opcode: bv16)
    requires Argument(opcode) != 0x7 && Argument(opcode) != 0x8
    ensures OnlyR5(s, MemoryOrFlags(chip, s, opcode), FlagNibble(opcode, s.fa, s.fb))
  {
    hide Argument, MemoryLatch, FlagNibble;
  }

  /** A card operation: the reader's own step, and nothing else but what is named. */
  predicate OnlyCard(s: State, t: State) {
    SameInside(s, t) && t.prn == s.prn && t.flags.busy == s.flags.busy
  }

  lemma InCardShape(s: State)
    ensures var t := InCard(s);
            && OnlyCard(s, t) && t.key == s.key && t.card == CardReader.Advanced(s.card)
            && PanelOf(t) == PanelOf(s).(ext := if CardReader.Feeding(s.card) then OnBus(CardReader.Offered(s.card)) else 0,
                                         extValid := true)
  {
    hide OnBus;
  }

  lemma OnBusZero(c: Card)
    ensures !CardReader.Feeding(c) ==> OnBus(CardReader.Offered(c)) == 0
  {
  }

  lemma OutCardShape(s: State)
    ensures var t := OutCard(s);
            && OnlyCard(s, t) && t.key == s.key && t.card == CardReader.Recorded(s.card, KeyByte(s.kr)) && PanelOf(t) == PanelOf(s)
  {
    hide KeyByte;
  }

  lemma CardOffShape(chip: Chip, s: State)
    ensures var t := CardOff(chip, s);
            && OnlyCard(s, t) && t.key == PressSwitch(chip, s.key) && t.card == FinishPass(s.card) && PanelOf(t) == PanelOf(s)
  {
    hide FinishPass, PressSwitch;
  }

  lemma CardReadShape(s: State)
    ensures var t := CardRead(s);
            OnlyCard(s, t) && t.key == s.key && t.card == StartRead(s.card) && PanelOf(t) == PanelOf(s)
  {
    hide StartRead;
  }

  lemma CardWriteShape(s: State)
    ensures var t := CardWrite(s);
            OnlyCard(s, t) && t.key == s.key && t.card == CardReader.StartWrite(s.card) && PanelOf(t) == PanelOf(s)
  {
  }

  lemma InsertShape(chip: Chip, s: State, data: seq<bv8>)
    ensures var t := InsertCard(chip, s, data);
            OnlyCard(s, t) && t.key == ReleaseSwitch(chip, s.key) && t.card == Inserted(data) && PanelOf(t) == PanelOf(s)
  {
    hide Inserted, ReleaseSwitch;
  }

  lemma EjectShape(chip: Chip, s: State)
    ensures var (t, written) := CardEject(chip, s);
            && OnlyCard(s, t) && t.key == PressSwitch(chip, s.key) && t.card == Ejected(s.card) && PanelOf(t) == PanelOf(s)
            && written == EjectedBytes(s.card)
  {
    hide Ejected, EjectedBytes, PressSwitch;
  }

  lemma BusyShape(chip: Chip, s: State)
    ensures var t, sw := TestBusy(chip, s), SwitchSeen(s.key[s.digit]);
            && t.regs == s.regs && ViewOf(t) == ViewOf(s) && t.prn == s.prn && t.key == s.key && t.flags.busy == s.flags.busy
            && t.flags.cond == (s.flags.cond && !sw && !s.flags.busy)
            && t.card == s.card.(waiting := s.card.waiting || (!s.card.present && s.digit == chip.cardSwitchCol && sw))
            && PanelOf(t) == PanelOf(s).(polled := s.polled || (sw && !s.flags.busy))
  {
    hide SwitchSeen;
  }

  /** A printer operation changes the printer and BUSY only. */
  predicate OnlyPrinter(s: State, t: State) {
    SameInside(s, t) && t.card == s.card && t.key == s.key && PanelOf(t) == PanelOf(s)
  }

  lemma OutPrintShape(chip: Chip, s: State)
    ensures var t, code := OutPrint(chip, s), PrintCode(s.kr);
            OnlyPrinter(s, t) && t.flags.busy == s.flags.busy
            && t.prn == if s.prn.ready then PutSlot(s.prn, chip.glyph(code), code) else s.prn
  {
    hide PutSlot, PrintCode;
  }

  lemma OutPrintFunctionShape(chip: Chip, s: State)
    ensures var t, code := OutPrintFunction(chip, s), MnemonicCode(s.kr);
            OnlyPrinter(s, t) && t.flags.busy == s.flags.busy
            && t.prn == if s.prn.ready then PutMnemonic(chip, s.prn, chip.mnemonic(code)) else s.prn
  {
    hide PutMnemonic, MnemonicCode;
  }

  lemma PrintClearShape(s: State)
    ensures var t := PrintClear(s);
            OnlyPrinter(s, t) && t.flags.busy == s.flags.busy
            && t.prn == s.prn.(buf := seq(20, _ => " "), codes := seq(20, _ => 0), ptr := 0, ready := true)
  {
  }

  lemma PrintStepShape(s: State)
    ensures var t := PrintStep(s);
            OnlyPrinter(s, t) && t.flags.busy == s.flags.busy && t.prn == if s.prn.ready then PutSlot(s.prn, " ", 0) else s.prn
  {
    hide PutSlot;
  }

  lemma PrintLineShape(s: State)
    ensures var t := PrintLine(s);
            OnlyPrinter(s, t) && t.prn == Printed(s.prn) && t.flags.busy == (s.flags.busy || StartsLine(s.prn))
  {
    hide PanelOf, Printed, StartsLine;
    PrintLinePanel(s);
  }

  lemma PrintLinePanel(s: State)
    ensures PanelOf(PrintLine(s)) == PanelOf(s)
  {
    hide Printed, StartsLine;
  }

  lemma PrintFeedShape(s: State)
    ensures var t := PrintFeed(s); OnlyPrinter(s, t) && t.prn == FeedStarted(s.prn) && t.flags.busy
  {
    hide FeedStarted;
  }

  lemma InLibShape(chip: Chip, s: State)
    ensures var t := InLib(chip, s);
            SameInside(s, t) && SameAround(s, t) && PanelOf(t) == LibraryPanel(chip, PanelOf(s), 0)
  {
    hide OnBus, ExecFetchPC;
  }

  lemma OutLibPCShape(chip: Chip, s: State)
    ensures var t := OutLibPC(s);
            SameInside(s, t) && SameAround(s, t) && PanelOf(t) == LibraryPanel(chip, PanelOf(s), 1)
  {
    hide PointerShifted;
  }

  lemma InLibPCShape(chip: Chip, s: State)
    ensures var t := InLibPC(s);
            SameInside(s, t) && SameAround(s, t) && PanelOf(t) == LibraryPanel(chip, PanelOf(s), 2)
  {
    hide PointerDigit;
  }

  lemma InLibHighShape(chip: Chip, s: State)
    ensures var t := InLibHigh(chip, s);
            SameInside(s, t) && SameAround(s, t) && PanelOf(t) == LibraryPanel(chip, PanelOf(s), 3)
  {
    hide HighNibble;
  }

  lemma LibraryShape(chip: Chip, s: State, opcode: bv16)
    ensures var t := LibraryOp(chip, s, opcode);
            SameInside(s, t) && SameAround(s, t) && PanelOf(t) == LibraryPanel(chip, PanelOf(s), Argument(opcode))
  {
    hide Argument, InLib, OutLibPC, InLibPC, InLibHigh, SameInside, SameAround, PanelOf;
    InLibShape(chip, s);
    OutLibPCShape(chip, s);
    InLibPCShape(chip, s);
    InLibHighShape(chip, s);
    NothingShape(s);
  }

  lemma NothingShape(s: State)
    ensures SameInside(s, s) && SameAround(s, s)
  {
  }

  function LibraryPanel(chip: Chip, p: Panel, sel: bv16): Panel {
    var l := p.lib;
    if sel == 0 then
      p.(ext := OnBus(chip.library(l.addr)), extValid := true,
         lib := l.(addr := (l.addr + 1) % 5000, execPC := if p.addr == ExecFetchPC(chip.variant) then Some(l.addr) else l.execPC))
    else if sel == 1 then
      p.(lib := l.(addr := PointerShifted(l.addr, p.kr),
                   readPos := ((if l.wasWriting then l.readPos else 0) + 1) % 4, wasWriting := true))
    else if sel == 2 then
      var pos := if l.wasWriting then 0 else l.readPos;
      p.(ext := PointerDigit(l.addr, pos), extValid := true, lib := l.(readPos := (pos + 1) % 4, wasWriting := false))
    else if sel == 3 then p.(ext := HighNibble(chip.library(l.addr)), extValid := true)
    else p
  }

  /** Neither the units around the CPU nor its own fields change. */
  predicate Apart(s: State, t: State) { SameAround(s, t) && PanelOf(t) == PanelOf(s) }

  lemma AluShape(chip: Chip, s: State, opcode: bv16)
    requires IsAlu(opcode)
    ensures Apart(s, ExecuteAlu(chip, s, opcode))
  {
    hide PanelOf, IsAlu, AluPhase, ExchangePhase, CapturePhase, StorePhase, RamOpPhase, ReleaseBus, DriveIO, FieldMask;
    var m := FieldMask(opcode);
    FieldSelects(opcode);
    DriveApart(s, opcode);
    var t := DriveIO(s, opcode);
    PassApart(chip, t, opcode, m);
    t := AluPhase(chip, t, opcode, m);
    ExchangeApart(t, opcode, m);
    t := ExchangePhase(t, opcode, m);
    CaptureApart(t, m);
    t := CapturePhase(t, m);
    StoreApart(t);
    t := StorePhase(t);
    RamOpApart(chip, t);
    ReleaseApart(RamOpPhase(chip, t));
  }

  lemma DriveApart(s: State, opcode: bv16)
    ensures Apart(s, DriveIO(s, opcode))
  {
  }

  lemma PassApart(chip: Chip, s: State, opcode: bv16, m: Mask)
    requires Selects(m)
    ensures Apart(s, AluPhase(chip, s, opcode, m))
  {
    hide PassRegs, ClearsCond, Operand, ConstantRow, Destination, Decode, Get, Put, Loaded, LoadSource, Selects;
  }

  lemma ExchangeApart(s: State, opcode: bv16, m: Mask)
    ensures Apart(s, ExchangePhase(s, opcode, m))
  {
    hide ExchangeRegs;
  }

  lemma CaptureApart(s: State, m: Mask)
    ensures Apart(s, CapturePhase(s, m))
  {
  }

  lemma StoreApart(s: State)
    ensures Apart(s, StorePhase(s))
  {
    hide PanelOf, SameAround, StorePhase;
    StoreAround(s);
    StorePanel(s);
  }

  lemma StoreAround(s: State)
    ensures SameAround(s, StorePhase(s))
  {
    hide BusData;
  }

  lemma StorePanel(s: State)
    ensures PanelOf(StorePhase(s)) == PanelOf(s)
  {
    hide BusData;
  }

  lemma RamOpApart(chip: Chip, s: State)
    ensures Apart(s, RamOpPhase(chip, s))
  {
    hide PanelOf, SpecPhase, WritePhase;
    SpecApart(chip, s);
    WriteApart(chip, s);
  }

  lemma SpecApart(chip: Chip, s: State)
    ensures Apart(s, SpecPhase(chip, s))
  {
    hide BusData, SpecOp, SpecAddr, RamAfterSpec;
  }

  lemma WriteApart(chip: Chip, s: State)
    ensures Apart(s, WritePhase(chip, s))
  {
    hide BusData, Exchanged;
  }

  lemma ReleaseApart(s: State)
    ensures Apart(s, ReleaseBus(s))
  {
  }

  /** Two registers either agree at the bit an opcode names or differ by exactly that bit. */
  lemma OneBit(opcode: bv16, a: bv16, b: bv16)
    ensures var bit, d := BitOf(opcode), Differ(a, b, BitOf(opcode));
            && (HasBit(Flipped(a, b), bit) ==> d == bit && d != 0)
            && (!HasBit(Flipped(a, b), bit) ==> d == 0 && Flipped(a, d) == a && Flipped(b, d) == b)
  {
    hide BitOf, Flipped, HasBit, Differ;
    NamedBit(opcode);
    SingleBit(Flipped(a, b), BitOf(opcode));
    DifferIsFlipped(a, b, BitOf(opcode));
    FlipNothing(a);
    FlipNothing(b);
  }

  lemma DifferIsFlipped(a: bv16, b: bv16, bit: bv16)
    ensures Differ(a, b, bit) == Flipped(a, b) & bit
  {
  }

  lemma FlipNothing(a: bv16)
    ensures Flipped(a, 0) == a
  {
  }

  lemma NamedBit(opcode: bv16)
    ensures BitOf(opcode) & (BitOf(opcode) - 1) == 0
  {
    hide Argument;
    ArgumentBelow(opcode);
    ShiftedBit(Argument(opcode));
  }

  lemma ArgumentBelow(opcode: bv16)
    ensures Argument(opcode) < 16
  {
  }

  lemma ShiftedBit(n: bv16)
    requires n < 16
    ensures var bit: bv16 := 1 << (n as bv5); bit & (bit - 1) == 0
  {
  }

  lemma SingleBit(x: bv16, bit: bv16)
    requires bit & (bit - 1) == 0
    ensures x & bit == 0 || x & bit == bit
    ensures HasBit(x, bit) <==> x & bit != 0
    ensures bit != 0 || !HasBit(x, bit)
  {
  }

  lemma FetchKeepsAddress(chip: Chip, s: State)
    ensures Begin(chip, s).addr == s.addr
  {
  }

  class Tmc0501 {
    const chip: Chip
    const path: AluPath
    const card: CardUnit
    const printer: PrinterUnit
    const key: array<bv8>
    /** KR, SR, fA, fB, EXT, PREG, the flags, the counters and the library pointer. */
    var panel: Panel

    ghost predicate Valid() {
      && path.Valid() && path.chip == chip && printer.chip == chip && key.Length == 16
      && card.fullData.Length == 4 * BANK_BYTES && card.bankBuffer.Length == BANK_BYTES
      && printer.buf.Length == 20 && printer.codeBuf.Length == 20
      && Units() !! path.Parts() && Separate()
    }

    /** The card reader, the printer and the keys. */
    ghost function Units(): set<object> {
      {card, card.fullData, card.bankBuffer, printer, printer.buf, printer.codeBuf, key}
    }

    /** No array is shared between them. */
    ghost predicate Separate() {
      && (key as object) !in {card.fullData as object, card.bankBuffer, printer.buf, printer.codeBuf}
      && (printer.buf as object) !in {card.fullData as object, card.bankBuffer, printer.codeBuf}
      && (printer.codeBuf as object) !in {card.fullData as object, card.bankBuffer}
      && card.fullData != card.bankBuffer
    }

    ghost predicate Around(s: State)
      requires Valid()
      reads Units()
    {
      card.AsCard() == s.card && printer.AsPrinter() == s.prn && printer.busy == s.flags.busy && key[..] == s.key
    }

    /** The CPU's whole state is that of `s`. */
    ghost predicate Agrees(s: State)
      requires Valid()
      reads this, path.Parts(), Units()
    {
      path.Agrees(s) && Around(s) && panel == PanelOf(s)
    }

    /** The CPU around a data path never used. */
    constructor (chip: Chip, path: AluPath)
      requires path.Valid() && path.chip == chip && path.Agrees(Blank())
      ensures Valid() && fresh(Units()) && this.chip == chip && this.path == path && Agrees(Blank())
    {
      hide PanelOf, Blank, AluPath.Agrees, AluPath.Valid, Rows, Ram.AsRows, NoCard, NewPrinter, Tmc0501.NoKeys,
           CardUnit.AsCard, PrinterUnit.AsPrinter;
      BlankAround();
      assert forall o :: o in path.Parts() ==> allocated(o);
      hide AluPath.Parts;
      this.chip, this.path := chip, path;
      var c, p, k := NewUnits(chip);
      card, printer, key := c, p, k;
      panel := PanelOf(Blank());
    }

    /** No card, an empty line, no key down. */
    static method NewUnits(chip: Chip) returns (card: CardUnit, printer: PrinterUnit, key: array<bv8>)
      ensures fresh(card) && fresh(card.fullData) && fresh(card.bankBuffer) && card.Valid() && card.AsCard() == NoCard()
      ensures fresh(printer) && fresh(printer.buf) && fresh(printer.codeBuf) && printer.Valid() && printer.chip == chip
      ensures printer.AsPrinter() == NewPrinter() && !printer.busy
      ensures fresh(key) && key[..] == NoKeys() && key != printer.codeBuf && key != card.fullData && key != card.bankBuffer
      ensures printer.codeBuf != card.fullData && printer.codeBuf != card.bankBuffer
    {
      hide NoCard, NewPrinter, Tmc0501.NoKeys;
      card := new CardUnit();
      printer := new PrinterUnit(chip);
      key := new bv8[16](_ => 0);
      KeysAllUp(key[..]);
    }

    static lemma BlankAround()
      ensures Blank().card == NoCard() && Blank().prn == NewPrinter() && !Blank().flags.busy && Blank().key == NoKeys()
    {
    }

    static function NoKeys(): KeyMatrix { seq(16, _ => 0) }

    static lemma KeysAllUp(keys: seq<bv8>)
      requires |keys| == 16 && forall i :: 0 <= i < 16 ==> keys[i] == 0
      ensures keys == NoKeys()
    {
    }

    /** The objects of both halves are allocated, so calls that do not name them leave them alone. */
    lemma Exist()
      requires Valid()
      ensures (forall o :: o in Units() ==> allocated(o)) && (forall o :: o in path.Parts() ==> allocated(o))
    {
    }

    /** What follows from validity and agreement, once and for all. */
    lemma Known(s: State)
      requires Valid() && Agrees(s)
      ensures path.Valid() && path.chip == chip && key.Length == 16 && this !in path.Parts() && this !in Units()
      ensures path.alu in path.Parts() && path.alu.Sout in path.Parts() && path.memory in path.Parts() && Units() !! path.Parts()
      ensures path.alu.cond == s.flags.cond && path.alu.R5 == s.regs.r5
      ensures panel.kr == s.kr && panel.sr == s.sr && panel.fa == s.fa && panel.fb == s.fb && panel.ext == s.ext && panel.preg == s.preg
      ensures panel.idle == s.flags.idle && panel.hold == s.flags.hold && panel.jump == s.flags.jump
      ensures panel.extValid == s.flags.extValid
      ensures panel.digit == s.digit && panel.addr == s.addr && panel.lib == s.lib && panel.polled == s.polled
    {
      path.Reads(s);
    }

    /** The data path is apart from the CPU and from its other units. */
    lemma Wired(s: State)
      requires Valid() && Agrees(s)
      ensures path.Valid() && this !in path.Parts() && this !in Units() && path.alu in path.Parts() && Units() !! path.Parts()
      ensures path.alu.cond == s.flags.cond && card in Units() && Around(s) && path.Agrees(s)
    {
      path.Reads(s);
    }

    lemma AroundFollows(s: State, t: State)
      requires Valid() && Around(s) && SameAround(s, t)
      ensures Around(t)
    {
    }

    /** Nothing but the CPU's own fields is going to change. */
    lemma Stay(s: State, t: State)
      requires Valid() && path.Agrees(s) && Around(s) && SameInside(s, t) && SameAround(s, t)
      ensures path.Agrees(t) && Around(t)
    {
      path.Follows(s, t);
    }

    /** The CPU's own fields take their new values. */
    method SetPanel(p: Panel, ghost s: State, ghost t: State)
      requires Valid() && Agrees(s) && SameInside(s, t) && SameAround(s, t) && PanelOf(t) == p
      modifies `panel
      ensures Agrees(t)
    {
      hide PanelOf, ViewOf, Separate, SameAround, SameInside, Around, AluPath.Valid, AluPath.Agrees, AluPath.Parts, Units, Valid;
      Exist();
      Wired(s);
      Stay(s, t);
      panel := p;
    }

    /** COND takes its new value. */
    method SetCond(cond: bool, ghost s: State, ghost t: State)
      requires Valid() && Agrees(s) && t.regs == s.regs && ViewOf(t) == ViewOf(s) && SameAround(s, t) && t.flags.cond == cond
      modifies path.alu`cond
      ensures path.Agrees(t) && Around(t)
    {
      hide PanelOf, ViewOf, Separate, SameAround, Around, AluPath.Valid, AluPath.Agrees, AluPath.Parts, Units, Valid;
      Exist();
      Wired(s);
      AroundFollows(s, t);
      path.SetCond(cond, s, t);
    }

    /** COND and the CPU's own fields do. */
    method SetPanelAndCond(p: Panel, cond: bool, ghost s: State, ghost t: State)
      requires Valid() && Agrees(s) && t.regs == s.regs && ViewOf(t) == ViewOf(s) && SameAround(s, t)
      requires t.flags.cond == cond && PanelOf(t) == p
      modifies `panel, path.alu`cond
      ensures Agrees(t)
    {
      hide PanelOf, ViewOf, Separate, SameAround, Around, AluPath.Valid, AluPath.Agrees, AluPath.Parts, Units, Valid;
      Exist();
      Wired(s);
      SetCond(cond, s, t);
      panel := p;
    }

    /** R5 does. */
    method SetOnlyR5(r5: Byte, ghost s: State, ghost t: State)
      requires Valid() && Agrees(s) && OnlyR5(s, t, r5)
      modifies path.alu`R5
      ensures Agrees(t)
    {
      hide PanelOf, ViewOf, Separate, SameAround, Around, AluPath.Valid, AluPath.Agrees, AluPath.Parts, Units, Valid;
      Exist();
      Wired(s);
      AroundFollows(s, t);
      path.SetR5(r5, s, t);
    }

    lemma BeginIs(s: State)
      ensures Begin(chip, s) == Restore(s, chip.rom(s.addr))
    {
    }

    /** COND's auto-restore for the instruction fetched. */
    method BeginNextStep(ghost s: State) returns (opcode: bv16)
      requires Valid() && Agrees(s)
      modifies `panel, path.alu`cond
      ensures opcode == chip.rom(s.addr) && Agrees(Begin(chip, s))
    {
      hide PanelOf, ViewOf, Separate, Restore, Begin, Restores, SameAround, Around, AluPath.Valid, AluPath.Agrees,
           AluPath.Parts, Units, Valid;
      Known(s);
      opcode := chip.rom(panel.addr);
      RestoreShape(s, opcode);
      BeginIs(s);
      var restores := Restores(panel, opcode);
      SetPanelAndCond(panel.(jump := panel.jump && !restores), path.alu.cond || restores, s, Restore(s, opcode));
    }

    /** Digit counter, HOLD, and the one-cycle windows of EXT and the IO bus. */
    method EnterCycle(ghost s: State)
      requires Valid() && Agrees(s)
      modifies `panel, path.alu.Sout, path.memory`ioValid
      ensures Agrees(Enter(s))
    {
      hide PanelOf, ViewOf, Separate, Enter, SameAround, Io, AluPath.Valid, AluPath.Agrees, AluPath.Parts, Units, Valid, Around;
      Exist();
      Known(s);
      EnterShape(s);
      AroundFollows(s, Enter(s));
      path.NextCycle(s, Enter(s));
      panel := panel.(digit := if panel.digit > 0 then panel.digit - 1 else 15, hold := false, polled := false,
                      ext := if panel.extValid then panel.ext else 0, extValid := false);
    }

    method TakeBranch(opcode: bv16, ghost s: State)
      requires Valid() && Agrees(s)
      modifies `panel
      ensures Agrees(Branch(s, opcode))
    {
      hide PanelOf, ViewOf, Separate, Branch, BranchTarget, SameAround, SameInside, Around, AluPath.Valid,
           AluPath.Agrees, AluPath.Parts,
           Units, Valid;
      Known(s);
      BranchShape(s, opcode);
      SetPanel(panel.(jump := true, addr := BranchTarget(path.alu.cond, panel.addr, opcode)), s, Branch(s, opcode));
    }

    /** Single bits of fA, fB and KR. */
    method FlagOperation(opcode: bv16, ghost s: State)
      requires Valid() && Agrees(s)
      modifies `panel, path.alu`cond
      ensures Agrees(FlagOp(s, opcode))
    {
      hide PanelOf, ViewOf, Separate, FlagOp, FlagBits, SameAround, Around, AluPath.Valid, AluPath.Agrees, AluPath.Parts, Units, Valid;
      Exist();
      Known(s);
      FlagShape(s, opcode);
      FlagPanel(s, opcode);
      var a, b, k, c := FlagStep(opcode, panel.fa, panel.fb, panel.kr, path.alu.R5, path.alu.cond);
      SetPanelAndCond(panel.(fa := a, fb := b, kr := k), c, s, FlagOp(s, opcode));
    }

    /** The bit an opcode names, tested, set, cleared, inverted, exchanged, copied or compared. */
    static method FlagStep(opcode: bv16, a: bv16, b: bv16, k: bv16, r5: Byte, c: bool)
      returns (fa: bv16, fb: bv16, kr: bv16, cond: bool)
      ensures Bits(fa, fb, kr, cond) == FlagBits(Bits(a, b, k, c), r5, opcode)
    {
      hide BitOf, WithNibble, HasBit, WithBit, WithoutBit, Flipped, Differ;
      fa, fb, kr, cond := a, b, k, c;
      var bit := BitOf(opcode);
      OneBit(opcode, a, b);
      match opcode & 0x000F {
        case 0x0 => if HasBit(fa, bit) { cond := false; }
        case 0x1 => fa := WithBit(fa, bit);
        case 0x2 => fa := WithoutBit(fa, bit);
        case 0x3 => fa := Flipped(fa, bit);
        case 0x4 => if HasBit(Flipped(fa, fb), bit) { fa, fb := Flipped(fa, bit), Flipped(fb, bit); }
        case 0x5 => kr := WithBit(kr, bit);
        case 0x6 => if HasBit(Flipped(fa, fb), bit) { fa := Flipped(fa, bit); }
        case 0x7 => fa := WithNibble(fa, r5);
        case 0x8 => if HasBit(fb, bit) { cond := false; }
        case 0x9 => fb := WithBit(fb, bit);
        case 0xA => fb := WithoutBit(fb, bit);
        case 0xB => fb := Flipped(fb, bit);
        case 0xC => if !HasBit(Flipped(fa, fb), bit) { cond := false; }
        case 0xD => kr := WithoutBit(kr, bit);
        case 0xE => if HasBit(Flipped(fa, fb), bit) { fb := Flipped(fb, bit); }
        case _ => fb := WithNibble(fb, r5);
      }
    }

    lemma KeysAre(s: State)
      requires Valid() && Agrees(s)
      ensures key[panel.digit] == s.key[s.digit]
    {
    }

    /** The active row's lines, all rows one after the other or this row only. */
    method Scan(opcode: bv16, ghost s: State)
      requires Valid() && Agrees(s)
      modifies `panel, path.alu`cond
      ensures Agrees(KeyScan(s, opcode))
    {
      hide PanelOf, ViewOf, Separate, KeyScan, Scanned, PressedIn, ScansAll, SameAround, Around, AluPath.Valid,
           AluPath.Agrees, AluPath.Parts,
           Units, Valid;
      Exist();
      Known(s);
      KeysAre(s);
      ScanShape(s, opcode);
      var lines := PressedIn(key[panel.digit], opcode);
      var p := ScanStep(panel, lines, ScansAll(opcode));
      SetPanelAndCond(p, path.alu.cond && lines == 0, s, KeyScan(s, opcode));
    }

    static method ScanStep(p: Panel, lines: bv8, all: bool) returns (q: Panel)
      ensures q == Scanned(p, lines, all)
    {
      hide KeyCode;
      q := p.(polled := true);
      if all {
        if lines != 0 {
          q := q.(kr := KeyCode(p.digit, lines));
        } else if p.digit != 0 {
          q := q.(hold := true);
        }
      }
    }

    /** HOLD freezes the program counter, a latched PREG redirects it once. */
    method Advance(ghost s: State)
      requires Valid() && Agrees(s)
      modifies `panel
      ensures Agrees(Redirect(s))
    {
      hide PanelOf, ViewOf, Separate, Redirect, NextAddr, SameAround, SameInside, Around, AluPath.Valid,
           AluPath.Agrees, AluPath.Parts, Units, Valid;
      Exist();
      Known(s);
      RedirectShape(s);
      var p := NextStep(panel);
      SetPanel(p, s, Redirect(s));
    }

    static method NextStep(p: Panel) returns (q: Panel)
      ensures q == p.(addr := NextAddr(p.hold, p.preg, p.addr), preg := if p.hold then p.preg else 0)
    {
      q := p;
      if !p.hold {
        if p.preg != 0 {
          q := q.(addr := p.preg, preg := 0);
        } else {
          q := q.(addr := p.addr + 1);
        }
      }
    }

    /** SET KR[1] latches the next redirect. */
    method Latch(ghost s: State)
      requires Valid() && Agrees(s)
      modifies `panel
      ensures Agrees(LatchPreg(s))
    {
      hide PanelOf, ViewOf, Separate, LatchPreg, LatchedPreg, LatchTaken, SameAround, SameInside, Around, AluPath.Valid, AluPath.Agrees,
           AluPath.Parts, Units, Valid;
      Exist();
      Known(s);
      LatchPregShape(s);
      var k, p := LatchStep(panel.kr, panel.preg);
      SetPanel(panel.(kr := k, preg := p), s, LatchPreg(s));
    }

    static method LatchStep(k: bv16, p: bv16) returns (kr: bv16, preg: bv16)
      ensures kr == LatchTaken(k) && preg == LatchedPreg(k, p)
    {
      kr, preg := k, p;
      if kr & 2 != 0 {
        preg := (kr >> 4) | ((kr & 1) << 12);
        kr := kr & 0xFFFD;
      }
    }

    /** WAIT Dn, IDL, KR and the whole-register flag operations. */
    method PlainOperation(opcode: bv16, ghost s: State)
      requires Valid() && Agrees(s)
      modifies `panel, path.alu`R5, path.alu`cond
      ensures Agrees(PlainControl(s, opcode))
    {
      hide PlainControl, PlainPanel, TestsKR, Argument, PanelOf, ViewOf, Separate, SameAround, SameInside, Around,
           AluPath.Valid, AluPath.Agrees, AluPath.Parts, Units, Valid;
      Exist();
      Known(s);
      ghost var t := PlainControl(s, opcode);
      if opcode & 0x000F == 0x7 {
        PlainR5(s, opcode);
        SetOnlyR5(Argument(opcode) as Byte, s, t);
      } else {
        PlainShape(s, opcode);
        PlainInside(s, opcode);
        PlainPanelIs(s, opcode);
        var p := PlainStep(panel, opcode);
        SetPanelAndCond(p, path.alu.cond && !(opcode & 0x000F == 0x5 && TestsKR(panel.kr, opcode)), s, t);
      }
    }

    static method PlainStep(p: Panel, opcode: bv16) returns (q: Panel)
      ensures q == PlainPanel(p, opcode)
    {
      hide OtherDigit, IncKR, KeyFromExt;
      q := p;
      match opcode & 0x000F {
        case 0x0 => if OtherDigit(p.digit, opcode) { q := q.(hold := true); }
        case 0x1 => q := q.(idle := false);
        case 0x2 => q := q.(fa := 0);
        case 0x4 => q := q.(kr := IncKR(p.kr));
        case 0x9 => q := q.(idle := true);
        case 0xA => q := q.(fb := 0);
        case 0xC => q := q.(kr := KeyFromExt(p.kr, p.ext));
        case 0xD => q := q.(kr := p.sr, sr := p.kr);
        case _ =>
      }
    }

    /** MEMWR and MEMRD. */
    method LatchMemory(write: bool, ghost s: State)
      requires Valid() && Agrees(s)
      modifies path.memory`ramAddr, path.memory`ramRead, path.memory`ramWrite
      ensures Agrees(MemoryLatch(chip, s, write))
    {
      hide MemoryLatch, PanelOf, ViewOf, Separate, SameAround, SameInside, Around, AluPath.Valid, AluPath.Agrees,
           AluPath.Parts, Units, Valid;
      Exist();
      Known(s);
      MemoryLatchOnly(chip, s, write);
      AroundFollows(s, MemoryLatch(chip, s, write));
      path.LatchAddress(write, s, MemoryLatch(chip, s, write));
    }

    /** MOV R5,fA/fB. */
    method TakeFlags(opcode: bv16, ghost s: State)
      requires Valid() && Agrees(s) && Argument(opcode) != 0x7 && Argument(opcode) != 0x8
      modifies path.alu`R5
      ensures Agrees(MemoryOrFlags(chip, s, opcode))
    {
      hide MemoryOrFlags, Argument, FlagNibble, PanelOf, ViewOf, Separate, SameAround, SameInside, Around,
           AluPath.Valid, AluPath.Agrees, AluPath.Parts, Units, Valid;
      Known(s);
      FlagsToR5(chip, s, opcode);
      SetOnlyR5(FlagNibble(opcode, panel.fa, panel.fb), s, MemoryOrFlags(chip, s, opcode));
    }

    /** STO and RCL. */
    method StoreOrRecall(opcode: bv16, ghost s: State)
      requires Valid() && Agrees(s)
      modifies path.memory`regAddr, path.memory`store, path.memory`recall
      ensures Agrees(StoreRecall(s, opcode))
    {
      hide StoreRecall, PanelOf, ViewOf, Separate, SameAround, SameInside, Around, AluPath.Valid, AluPath.Agrees,
           AluPath.Parts, Units, Valid;
      Exist();
      Known(s);
      StoreRecallOnly(s, opcode);
      AroundFollows(s, StoreRecall(s, opcode));
      path.LatchRegister(opcode, s, StoreRecall(s, opcode));
    }

    /** RAM_OP. */
    method Arm(ghost s: State)
      requires Valid() && Agrees(s)
      modifies path.memory`opPending
      ensures Agrees(ArmRamOp(s))
    {
      hide ArmRamOp, PanelOf, ViewOf, Separate, SameAround, SameInside, Around, AluPath.Valid, AluPath.Agrees,
           AluPath.Parts, Units, Valid;
      Exist();
      Known(s);
      ArmRamOpOnly(s);
      AroundFollows(s, ArmRamOp(s));
      path.ArmSpec(s, ArmRamOp(s));
    }

    /** MOV R5,KR. */
    method TakeKey(ghost s: State)
      requires Valid() && Agrees(s)
      modifies path.alu`R5
      ensures Agrees(KeyToR5(s))
    {
      hide KeyToR5, KeyNibble, PanelOf, ViewOf, Separate, SameAround, SameInside, Around, AluPath.Valid,
           AluPath.Agrees, AluPath.Parts, Units, Valid;
      Known(s);
      KeyToR5Only(s);
      SetOnlyR5(KeyNibble(panel.kr), s, KeyToR5(s));
    }

    /** MOV KR,R5. */
    method GiveKey(ghost s: State)
      requires Valid() && Agrees(s)
      modifies `panel
      ensures Agrees(R5ToKey(s))
    {
      hide R5ToKey, WithKeyNibble, PanelOf, ViewOf, Separate, SameAround, SameInside, Around, AluPath.Valid,
           AluPath.Agrees, AluPath.Parts, Units, Valid;
      Known(s);
      R5ToKeyShape(s);
      SetPanel(panel.(kr := WithKeyNibble(panel.kr, path.alu.R5)), s, R5ToKey(s));
    }

    /** Library pointer and bytes. */
    method UseLibrary(opcode: bv16, ghost s: State)
      requires Valid() && Agrees(s)
      modifies `panel
      ensures Agrees(LibraryOp(chip, s, opcode))
    {
      hide LibraryOp, LibraryPanel, Argument, PanelOf, ViewOf, Separate, SameAround, SameInside, Around, AluPath.Valid,
           AluPath.Agrees, AluPath.Parts, Units, Valid;
      Exist();
      Known(s);
      LibraryShape(chip, s, opcode);
      var p := LibraryStep(panel, Argument(opcode));
      SetPanel(p, s, LibraryOp(chip, s, opcode));
    }

    method LibraryStep(p: Panel, sel: bv16) returns (q: Panel)
      ensures q == LibraryPanel(chip, p, sel)
    {
      hide OnBus, PointerShifted, PointerDigit, HighNibble, ExecFetchPC;
      var l := p.lib;
      if sel == 0 {
        if p.addr == ExecFetchPC(chip.variant) {
          l := l.(execPC := Some(l.addr));
        }
        q := p.(ext := OnBus(chip.library(l.addr)), extValid := true, lib := l.(addr := (l.addr + 1) % 5000));
      } else if sel == 1 {
        if !l.wasWriting {
          l := l.(readPos := 0);
        }
        q := p.(lib := l.(addr := PointerShifted(l.addr, p.kr), readPos := (l.readPos + 1) % 4, wasWriting := true));
      } else if sel == 2 {
        if l.wasWriting {
          l := l.(readPos := 0);
        }
        q := p.(ext := PointerDigit(l.addr, l.readPos), extValid := true,
                lib := l.(readPos := (l.readPos + 1) % 4, wasWriting := false));
      } else if sel == 3 {
        q := p.(ext := HighNibble(chip.library(l.addr)), extValid := true);
      } else {
        q := p;
      }
    }

    /** IN CRD. */
    method CardIn(ghost s: State)
      requires Valid() && Agrees(s)
      modifies `panel, card`ptr
      ensures Agrees(InCard(s))
    {
      hide InCard, OnBus, CardReader.Advanced, CardReader.Offered, PanelOf, ViewOf, AluPath.Valid, AluPath.Agrees, AluPath.Parts;
      Exist();
      Known(s);
      InCardShape(s);
      OnBusZero(s.card);
      path.Follows(s, InCard(s));
      var b := card.In();
      panel := panel.(ext := OnBus(b), extValid := true);
    }

    /** OUT CRD. */
    method CardOut(ghost s: State)
      requires Valid() && Agrees(s)
      modifies card`ptr, card.bankBuffer
      ensures Agrees(OutCard(s))
    {
      hide OutCard, KeyByte, CardReader.Recorded, PanelOf, ViewOf, AluPath.Valid, AluPath.Agrees, AluPath.Parts;
      Exist();
      Known(s);
      OutCardShape(s);
      path.Follows(s, OutCard(s));
      card.Out(KeyByte(panel.kr));
    }

    /** CRD_OFF: the pass lands and the card leaves, which presses the switch. */
    method CardLeaves(ghost s: State)
      requires Valid() && Agrees(s)
      modifies card, card.fullData, card.bankBuffer, key
      ensures Agrees(CardOff(chip, s))
    {
      hide CardOff, FinishPass, PanelOf, ViewOf, AluPath.Valid, AluPath.Agrees, AluPath.Parts;
      Exist();
      Known(s);
      CardOffShape(chip, s);
      path.Follows(s, CardOff(chip, s));
      card.Off();
      key[chip.cardSwitchCol] := key[chip.cardSwitchCol] | CARD_SWITCH;
    }

    /** CRD_READ. */
    method CardReads(ghost s: State)
      requires Valid() && Agrees(s)
      modifies card, card.bankBuffer
      ensures Agrees(CardRead(s))
    {
      hide CardRead, StartRead, PanelOf, ViewOf, AluPath.Valid, AluPath.Agrees, AluPath.Parts;
      Exist();
      Known(s);
      CardReadShape(s);
      path.Follows(s, CardRead(s));
      card.Read();
    }

    /** CRD_WRITE. */
    method CardWrites(ghost s: State)
      requires Valid() && Agrees(s)
      modifies card`mode, card`ptr
      ensures Agrees(CardWrite(s))
    {
      hide CardWrite, CardReader.StartWrite, PanelOf, ViewOf, AluPath.Valid, AluPath.Agrees, AluPath.Parts;
      Exist();
      Known(s);
      CardWriteShape(s);
      path.Follows(s, CardWrite(s));
      card.Write();
    }

    /** insertCard. */
    method Insert(data: seq<bv8>, ghost s: State)
      requires Valid() && Agrees(s)
      modifies card, card.fullData, card.bankBuffer, key
      ensures Agrees(InsertCard(chip, s, data))
    {
      hide InsertCard, Inserted, PanelOf, ViewOf, AluPath.Valid, AluPath.Agrees, AluPath.Parts;
      Exist();
      Known(s);
      InsertShape(chip, s, data);
      path.Follows(s, InsertCard(chip, s, data));
      card.Insert(data);
      key[chip.cardSwitchCol] := key[chip.cardSwitchCol] & !CARD_SWITCH;
    }

    /** cardEject. */
    method Eject(ghost s: State) returns (written: seq<bv8>)
      requires Valid() && Agrees(s)
      modifies card, key
      ensures Agrees(CardEject(chip, s).0) && written == CardEject(chip, s).1
    {
      hide CardEject, Ejected, EjectedBytes, PanelOf, ViewOf, AluPath.Valid, AluPath.Agrees, AluPath.Parts;
      Exist();
      Known(s);
      EjectShape(chip, s);
      path.Follows(s, CardEject(chip, s).0);
      written := card.Eject();
      key[chip.cardSwitchCol] := key[chip.cardSwitchCol] | CARD_SWITCH;
    }

    /** OUT PRT. */
    method PrintCharacter(ghost s: State)
      requires Valid() && Agrees(s)
      modifies printer`ptr, printer.buf, printer.codeBuf
      ensures Agrees(OutPrint(chip, s))
    {
      hide OutPrint, PutSlot, PrintCode, PanelOf, ViewOf, AluPath.Valid, AluPath.Agrees, AluPath.Parts;
      Exist();
      Known(s);
      OutPrintShape(chip, s);
      path.Follows(s, OutPrint(chip, s));
      printer.OutCharacter(PrintCode(panel.kr));
    }

    /** OUT PRT_FUNC. */
    method PrintMnemonic(ghost s: State)
      requires Valid() && Agrees(s)
      modifies printer`ptr, printer.buf, printer.codeBuf
      ensures Agrees(OutPrintFunction(chip, s))
    {
      hide OutPrintFunction, PutMnemonic, MnemonicCode, PanelOf, ViewOf, AluPath.Valid, AluPath.Agrees, AluPath.Parts;
      Exist();
      Known(s);
      OutPrintFunctionShape(chip, s);
      path.Follows(s, OutPrintFunction(chip, s));
      printer.OutMnemonic(MnemonicCode(panel.kr));
    }

    /** PRT_CLEAR. */
    method ClearPrinter(ghost s: State)
      requires Valid() && Agrees(s)
      modifies printer`ptr, printer`ready, printer.buf, printer.codeBuf
      ensures Agrees(PrintClear(s))
    {
      hide PrintClear, PanelOf, ViewOf, AluPath.Valid, AluPath.Agrees, AluPath.Parts;
      Exist();
      Known(s);
      PrintClearShape(s);
      path.Follows(s, PrintClear(s));
      printer.Clear();
    }

    /** PRT_STEP. */
    method SkipColumn(ghost s: State)
      requires Valid() && Agrees(s)
      modifies printer`ptr, printer.buf, printer.codeBuf
      ensures Agrees(PrintStep(s))
    {
      hide PrintStep, PutSlot, PanelOf, ViewOf, AluPath.Valid, AluPath.Agrees, AluPath.Parts;
      Exist();
      Known(s);
      PrintStepShape(s);
      path.Follows(s, PrintStep(s));
      if printer.ready {
        printer.Put(" ", 0);
      }
    }

    /** PRT_PRINT. */
    method StartLine(ghost s: State)
      requires Valid() && Agrees(s)
      modifies printer
      ensures Agrees(PrintLine(s))
    {
      hide PrintLine, LineStarted, PanelOf, ViewOf, AluPath.Valid, AluPath.Agrees, AluPath.Parts;
      Exist();
      Known(s);
      PrintLineShape(s);
      path.Follows(s, PrintLine(s));
      printer.Print();
    }

    /** PRT_FEED. */
    method FeedPaper(ghost s: State)
      requires Valid() && Agrees(s)
      modifies printer
      ensures Agrees(PrintFeed(s))
    {
      hide PrintFeed, FeedStarted, PanelOf, ViewOf, AluPath.Valid, AluPath.Agrees, AluPath.Parts;
      Exist();
      Known(s);
      PrintFeedShape(s);
      path.Follows(s, PrintFeed(s));
      printer.Feed();
    }

    /** The BUSY countdown. */
    method Tick(ghost s: State)
      requires Valid() && Agrees(s)
      modifies printer
      ensures Agrees(Countdown(s))
    {
      hide Countdown, CountedDown, PanelOf, ViewOf, AluPath.Valid, AluPath.Agrees, AluPath.Parts;
      Exist();
      Known(s);
      CountdownShape(s);
      path.Follows(s, Countdown(s));
      printer.Tick();
    }

    lemma ReadsAround(s: State)
      requires Valid() && Around(s)
      ensures printer.busy == s.flags.busy && card.present == s.card.present
    {
    }

    /** The ROM may be waiting for a card; nothing else around the CPU changes. */
    method AwaitCard(waits: bool, ghost s: State, ghost t: State)
      requires Valid() && Around(s) && path.Agrees(t)
      requires t.prn == s.prn && t.key == s.key && t.flags.busy == s.flags.busy
      requires t.card == s.card.(waiting := s.card.waiting || waits)
      modifies card`waiting
      ensures Around(t) && path.Agrees(t)
    {
      hide AluPath.Agrees, AluPath.Parts;
      Exist();
      card.Await(waits);
    }

    /** TST BUSY, which is also how the ROM waits for a card. */
    method BusyTest(ghost s: State)
      requires Valid() && Agrees(s)
      modifies `panel, card`waiting, path.alu`cond
      ensures Agrees(TestBusy(chip, s))
    {
      hide PanelOf, ViewOf, TestBusy, Around, AluPath.Valid, AluPath.Agrees, AluPath.Parts, Units, Valid;
      Exist();
      Known(s);
      KeysAre(s);
      ReadsAround(s);
      BusyShape(chip, s);
      var seen, busy := SwitchSeen(key[panel.digit]), printer.busy;
      FinishTest(path.alu.cond && !seen && !busy, !card.present && panel.digit == chip.cardSwitchCol && seen,
                 panel.polled || (seen && !busy), s, TestBusy(chip, s));
    }

    /** COND and the wait for a card take their new values. */
    method CondAndWait(cond: bool, waits: bool, ghost s: State, ghost t: State)
      requires Valid() && Agrees(s)
      requires t.regs == s.regs && ViewOf(t) == ViewOf(s) && t.flags.cond == cond
      requires t.prn == s.prn && t.key == s.key && t.flags.busy == s.flags.busy
      requires t.card == s.card.(waiting := s.card.waiting || waits)
      modifies card`waiting, path.alu`cond
      ensures Around(t) && path.Agrees(t)
    {
      hide PanelOf, ViewOf, Around, AluPath.Valid, AluPath.Agrees, AluPath.Parts, Units, Valid;
      Exist();
      Wired(s);
      path.SetCond(cond, s, t);
      AwaitCard(waits, s, t);
    }

    /** They and the poll mark do. */
    method FinishTest(cond: bool, waits: bool, polls: bool, ghost s: State, ghost t: State)
      requires Valid() && Agrees(s)
      requires t.regs == s.regs && ViewOf(t) == ViewOf(s) && t.flags.cond == cond
      requires t.prn == s.prn && t.key == s.key && t.flags.busy == s.flags.busy
      requires t.card == s.card.(waiting := s.card.waiting || waits) && PanelOf(t) == panel.(polled := polls)
      modifies `panel, card`waiting, path.alu`cond
      ensures Agrees(t)
    {
      hide PanelOf, ViewOf, Around, AluPath.Valid, AluPath.Agrees, AluPath.Parts, Units, Valid;
      Exist();
      Wired(s);
      CondAndWait(cond, waits, s, t);
      panel := panel.(polled := polls);
    }

    /** An ALU instruction leaves everything but registers, COND and memory alone. */
    method Compute(opcode: bv16, ghost s: State)
      requires Valid() && Agrees(s) && IsAlu(opcode)
      modifies path.Parts()
      ensures Agrees(ExecuteAlu(chip, s, opcode))
    {
      hide PanelOf, ViewOf, ExecuteAlu, SameAround, Around, AluPath.Valid, AluPath.Agrees, AluPath.Parts, Units, Valid;
      Exist();
      Known(s);
      AluShape(chip, s, opcode);
      AroundFollows(s, ExecuteAlu(chip, s, opcode));
      path.ExecAlu(opcode, panel.kr, s);
    }

    /** Card reader, printer, RAM_OP and the moves between R5 and KR. */
    method PeripheralOperation(opcode: bv16, ghost s: State)
      requires Valid() && Agrees(s)
      modifies this, path.Parts(), Units()
      ensures Agrees(Peripheral(chip, s, opcode))
    {
      hide Argument, KeyToR5, R5ToKey, InCard, OutCard, CardOff, CardRead, CardWrite, OutPrint, OutPrintFunction, PrintClear, PrintStep,
           PrintLine, PrintFeed, ArmRamOp, Agrees, Valid;
      match Argument(opcode) {
        case 0x0 => TakeKey(s);
        case 0x1 => GiveKey(s);
        case 0x2 => CardIn(s);
        case 0x3 => CardOut(s);
        case 0x4 => CardLeaves(s);
        case 0x5 => CardReads(s);
        case 0xC => CardWrites(s);
        case 0x6 => PrintCharacter(s);
        case 0x7 => PrintMnemonic(s);
        case 0x8 => ClearPrinter(s);
        case 0x9 => SkipColumn(s);
        case 0xA => StartLine(s);
        case 0xB => FeedPaper(s);
        case 0xF => Arm(s);
        case _ =>
      }
    }

    /** MEMWR, MEMRD, or the flag nibble into R5. */
    method MemoryOrFlag(opcode: bv16, ghost s: State)
      requires Valid() && Agrees(s)
      modifies path.Parts()
      ensures Agrees(MemoryOrFlags(chip, s, opcode))
    {
      hide Argument, MemoryLatch, Agrees, Valid;
      MemoryCases(s, opcode);
      var arg := Argument(opcode);
      if arg == 0x7 || arg == 0x8 {
        LatchMemory(arg == 0x7, s);
      } else {
        TakeFlags(opcode, s);
      }
    }

    lemma MemoryCases(s: State, opcode: bv16)
      ensures Argument(opcode) == 0x7 || Argument(opcode) == 0x8 ==>
                MemoryOrFlags(chip, s, opcode) == MemoryLatch(chip, s, Argument(opcode) == 0x7)
    {
      hide Argument, MemoryLatch;
    }

    method ControlOperation(opcode: bv16, ghost s: State)
      requires Valid() && Agrees(s)
      modifies this, path.Parts(), Units()
      ensures Agrees(Control(chip, s, opcode))
    {
      hide MemoryOrFlags, Peripheral, TestBusy, LibraryOp, StoreRecall, PlainControl, Agrees, Valid;
      match opcode & 0x000F {
        case 0x6 => MemoryOrFlag(opcode, s);
        case 0x8 => PeripheralOperation(opcode, s);
        case 0xB => BusyTest(s);
        case 0xE => UseLibrary(opcode, s);
        case 0xF => StoreOrRecall(opcode, s);
        case _ => PlainOperation(opcode, s);
      }
    }

    /** Everything but a branch. */
    method ExecuteOpcode(opcode: bv16, ghost s: State)
      requires Valid() && Agrees(s) && !IsBranch(opcode)
      modifies this, path.Parts(), Units()
      ensures Agrees(Execute(chip, s, opcode))
    {
      hide IsBranch, FlagOp, KeyScan, Control, ExecuteAlu, Agrees, Valid;
      match opcode & 0x0F00 {
        case 0x0000 => FlagOperation(opcode, s);
        case 0x0800 => Scan(opcode, s);
        case 0x0A00 => ControlOperation(opcode, s);
        case _ => Compute(opcode, s);
      }
    }

    /** One step: what the machine's state was, the state machine's next state is what it is now. */
    method Step(ghost s: State)
      requires Valid() && Agrees(s)
      modifies this, path.Parts(), Units()
      ensures Agrees(Core.Step(chip, s))
    {
      hide Countdown, Begin, Enter, Branch, Execute, Redirect, LatchPreg, IsBranch, Agrees, Valid;
      FetchKeepsAddress(chip, Countdown(s));
      Tick(s);
      ghost var t := Countdown(s);
      var opcode := BeginNextStep(t);
      t := Begin(chip, t);
      EnterCycle(t);
      t := Enter(t);
      if IsBranch(opcode) {
        TakeBranch(opcode, t);
      } else {
        ExecuteOpcode(opcode, t);
        t := Execute(chip, t, opcode);
        Advance(t);
        Latch(Redirect(t));
      }
    }

    /** Any number of steps. */
    method Run(n: nat, ghost s: State)
      requires Valid() && Agrees(s)
      modifies this, path.Parts(), Units()
      ensures Agrees(Steps(chip, s, n))
    {
      hide Core.Step, Agrees, Valid;
      for i := 0 to n
        invariant Agrees(Steps(chip, s, i))
      {
        Step(Steps(chip, s, i));
      }
    }
  }
}
