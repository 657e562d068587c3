/**
 The printer in every reachable state: text lines and code lines stay in step through
 steps, aborts, feeds, resets and drains, and a line that is cut shows exactly the
 columns whose strokes had started.
 */
module PrinterLog {
  import opened Words
  import opened Core
  import opened CoreFrames
  import opened Runs

  // ---------------------------------------------------------------- slots and lines

  /** A buffer slot: a code and its glyph, or a mnemonic's character that the table lacks, coded 0. */
  ghost predicate SlotOk(chip: Chip, text: string, code: bv8) {
    text == chip.glyph(code) || (code == 0 && |text| == 1 && forall k: nat :: k < 64 ==> GlyphAt(chip, k) != text)
  }

  ghost predicate LineOk(chip: Chip, text: seq<string>, codes: seq<bv8>) {
    |text| == |codes| && forall j :: 0 <= j < |text| ==> SlotOk(chip, text[j], codes[j])
  }

  /** A code line belongs to a text line: a feed's blank line, or the same slots. */
  ghost predicate Spells(chip: Chip, text: seq<string>, codes: seq<bv8>) {
    (text == [] && codes == seq(20, _ => 0)) || (|text| == 20 && LineOk(chip, text, codes))
  }

  predicate BlankGlyph(chip: Chip) { chip.glyph(0) == " " }

  lemma {:induction false} CharCodeOk(chip: Chip, c: char, from: nat)
    ensures var code := CharCode(chip, c, from);
            chip.glyph(code) == [c] || (code == 0 && forall k: nat :: from <= k < 64 ==> GlyphAt(chip, k) != [c])
    decreases 64 - from
  {
    if from < 64 && GlyphAt(chip, from) != [c] {
      CharCodeOk(chip, c, from + 1);
    }
  }

  lemma {:induction false} PutMnemonicOk(chip: Chip, p: Printer, chars: string)
    requires LineOk(chip, p.buf, p.codes)
    ensures var q := PutMnemonic(chip, p, chars);
            LineOk(chip, q.buf, q.codes) && SameLog(p, q)
    decreases |chars|
  {
    if chars != [] {
      var c := chars[|chars| - 1];
      CharCodeOk(chip, c, 0);
      PutMnemonicOk(chip, PutSlot(p, [c], CharCode(chip, c, 0)), chars[..|chars| - 1]);
    }
  }

  /** Everything but the character buffer. */
  predicate SameLog(p: Printer, q: Printer) {
    q.ready == p.ready && q.busyCycles == p.busyCycles && q.pending == p.pending && q.lines == p.lines && q.codeLines == p.codeLines
  }

  // ---------------------------------------------------------------- the invariant

  /** A system: the CPU and what its two printer queues have handed out. */
  datatype Paper = Paper(cpu: State, texts: seq<seq<string>>, marks: seq<CodeLine>)

  function Texts(w: Paper): seq<seq<string>> { w.texts + w.cpu.prn.lines }

  function Marks(w: Paper): seq<CodeLine> { w.marks + w.cpu.prn.codeLines }

  /** Text and code lines in step, the line in progress last. */
  ghost predicate InStep(chip: Chip, texts: seq<seq<string>>, marks: seq<CodeLine>, pending: Option<seq<bv8>>) {
    && |texts| == |marks| + (if pending.Some? then 1 else 0)
    && (forall k :: 0 <= k < |marks| ==> Spells(chip, texts[k], marks[k].codes))
    && (pending.Some? ==> Spells(chip, texts[|marks|], pending.value))
  }

  ghost predicate PrinterOk(chip: Chip, p: Printer, busy: bool, texts: seq<seq<string>>, marks: seq<CodeLine>) {
    && InStep(chip, texts + p.lines, marks + p.codeLines, p.pending)
    && (p.ready ==> LineOk(chip, p.buf, p.codes))
    && (busy <==> p.busyCycles > 0)
    && p.busyCycles <= PRINTER_LINE_CYCLES
    && (p.pending.Some? ==> p.busyCycles > 0)
  }

  ghost predicate PaperOk(chip: Chip, w: Paper) {
    PrinterOk(chip, w.cpu.prn, w.cpu.flags.busy, w.texts, w.marks)
  }

  lemma FlushKeepsStep(chip: Chip, p: Printer, texts: seq<seq<string>>, marks: seq<CodeLine>, elapsed: nat)
    requires InStep(chip, texts + p.lines, marks + p.codeLines, p.pending)
    ensures var q := FlushPending(p, elapsed);
            && InStep(chip, texts + q.lines, marks + q.codeLines, None) && q.pending == None && q.lines == p.lines
            && q.buf == p.buf && q.codes == p.codes && q.ready == p.ready && q.busyCycles == p.busyCycles
  {
    if p.pending.Some? {
      CutKeepsCodes(p.pending.value, elapsed);
      var cut := CutLine(p.pending.value, elapsed);
      assert marks + (p.codeLines + [cut]) == (marks + p.codeLines) + [cut];
    }
    hide CutLine, Spells;
  }

  lemma CutKeepsCodes(codes: seq<bv8>, elapsed: nat)
    ensures CutLine(codes, elapsed).codes == codes
  {
  }

  lemma BothGrow(chip: Chip, texts: seq<seq<string>>, marks: seq<CodeLine>, text: seq<string>, mark: CodeLine)
    requires InStep(chip, texts, marks, None) && Spells(chip, text, mark.codes)
    ensures InStep(chip, texts + [text], marks + [mark], None)
  {
    hide Spells;
  }

  lemma LineBegins(chip: Chip, texts: seq<seq<string>>, marks: seq<CodeLine>, text: seq<string>, codes: seq<bv8>)
    requires InStep(chip, texts, marks, None) && Spells(chip, text, codes)
    ensures InStep(chip, texts + [text], marks, Some(codes))
  {
    hide Spells;
  }

  lemma CountdownOk(chip: Chip, p: Printer, busy: bool, texts: seq<seq<string>>, marks: seq<CodeLine>)
    requires PrinterOk(chip, p, busy, texts, marks)
    ensures PrinterOk(chip, CountedDown(p), busy && p.busyCycles != 1, texts, marks)
  {
    hide InStep, LineOk, FlushPending;
    if p.busyCycles == 1 {
      FlushKeepsStep(chip, p.(busyCycles := 0), texts, marks, PRINTER_LINE_CYCLES);
    }
  }

  lemma LineStartedOk(chip: Chip, p: Printer, busy: bool, texts: seq<seq<string>>, marks: seq<CodeLine>)
    requires PrinterOk(chip, p, busy, texts, marks) && p.ready
    ensures var starts := !(p.busyCycles > 0 && p.pending.Some?);
            PrinterOk(chip, LineStarted(p), busy || starts, texts, marks)
  {
    hide InStep, LineOk, FlushPending, Spells;
    if p.busyCycles > 0 && p.pending.Some? {
      FlushKeepsStep(chip, p, texts, marks, PRINTER_LINE_CYCLES - p.busyCycles);
    } else {
      ReversedSpells(chip, p.buf, p.codes);
      LineBegins(chip, texts + p.lines, marks + p.codeLines, Reversed(p.buf), Reversed(p.codes));
      assert (texts + p.lines) + [Reversed(p.buf)] == texts + (p.lines + [Reversed(p.buf)]);
    }
  }

  lemma ReversedSpells(chip: Chip, buf: GlyphBuffer, codes: CodeBuffer)
    requires LineOk(chip, buf, codes)
    ensures Spells(chip, Reversed(buf), Reversed(codes))
  {
    hide SlotOk;
  }

  lemma FeedStartedOk(chip: Chip, p: Printer, busy: bool, texts: seq<seq<string>>, marks: seq<CodeLine>)
    requires PrinterOk(chip, p, busy, texts, marks)
    ensures PrinterOk(chip, FeedStarted(p), true, texts, marks)
  {
    hide InStep, LineOk, FlushPending, Spells;
    var q := FlushActive(p);
    FlushKeepsStep(chip, p, texts, marks, PRINTER_LINE_CYCLES - p.busyCycles);
    var blank := CodeLine(seq(20, _ => 0), 7, 0, 0);
    BlankSpells(chip, blank);
    BothGrow(chip, texts + q.lines, marks + q.codeLines, [], blank);
    assert (texts + q.lines) + [[]] == texts + (q.lines + [[]]);
    assert (marks + q.codeLines) + [blank] == marks + (q.codeLines + [blank]);
  }

  lemma BlankSpells(chip: Chip, blank: CodeLine)
    requires blank.codes == seq(20, _ => 0)
    ensures Spells(chip, [], blank.codes)
  {
  }

  lemma BufferOpsOk(chip: Chip, s: State, w: Paper)
    requires BlankGlyph(chip) && PrinterOk(chip, s.prn, s.flags.busy, w.texts, w.marks)
    ensures PrinterOk(chip, OutPrint(chip, s).prn, s.flags.busy, w.texts, w.marks)
    ensures PrinterOk(chip, OutPrintFunction(chip, s).prn, s.flags.busy, w.texts, w.marks)
    ensures PrinterOk(chip, PrintClear(s).prn, s.flags.busy, w.texts, w.marks)
    ensures PrinterOk(chip, PrintStep(s).prn, s.flags.busy, w.texts, w.marks)
  {
    hide InStep, PutMnemonic, PutSlot, LineOk, SlotOk, PrintCode, MnemonicCode;
    if s.prn.ready {
      PutMnemonicOk(chip, s.prn, chip.mnemonic(MnemonicCode(s.kr)));
      PutSlotOk(chip, s.prn, chip.glyph(PrintCode(s.kr)), PrintCode(s.kr));
      PutSlotOk(chip, s.prn, " ", 0);
    }
    ClearedOk(chip);
  }

  lemma PutSlotOk(chip: Chip, p: Printer, text: string, code: bv8)
    requires LineOk(chip, p.buf, p.codes) && text == chip.glyph(code)
    ensures var q := PutSlot(p, text, code);
            LineOk(chip, q.buf, q.codes) && SameLog(p, q)
  {
  }

  lemma ClearedOk(chip: Chip)
    requires BlankGlyph(chip)
    ensures LineOk(chip, seq(20, _ => " "), seq(20, _ => 0))
  {
  }

  // ---------------------------------------------------------------- one step

  lemma PrintLineOk(chip: Chip, s: State, w: Paper)
    requires PrinterOk(chip, s.prn, s.flags.busy, w.texts, w.marks)
    ensures PrinterOk(chip, PrintLine(s).prn, PrintLine(s).flags.busy, w.texts, w.marks)
  {
    hide PrinterOk, LineStarted;
    if s.prn.ready {
      LineStartedOk(chip, s.prn, s.flags.busy, w.texts, w.marks);
    }
  }

  lemma PrintFeedOk(chip: Chip, s: State, w: Paper)
    requires PrinterOk(chip, s.prn, s.flags.busy, w.texts, w.marks)
    ensures PrinterOk(chip, PrintFeed(s).prn, PrintFeed(s).flags.busy, w.texts, w.marks)
  {
    hide PrinterOk, FeedStarted;
    FeedStartedOk(chip, s.prn, s.flags.busy, w.texts, w.marks);
  }

  predicate SamePrinter(s: State, t: State) {
    t.prn == s.prn && t.flags.busy == s.flags.busy
  }

  lemma BufferOpsKeepBusy(chip: Chip, s: State)
    ensures OutPrint(chip, s).flags.busy == s.flags.busy && OutPrintFunction(chip, s).flags.busy == s.flags.busy
    ensures PrintClear(s).flags.busy == s.flags.busy && PrintStep(s).flags.busy == s.flags.busy
  {
    hide PutSlot, PutMnemonic, PrintCode, MnemonicCode;
  }

  lemma PrintOpIsPeripheral(chip: Chip, s: State, op: bv16)
    requires IsPeripheral(op)
    ensures Execute(chip, s, op) == Peripheral(chip, s, op)
  {
    hide Peripheral, ExecuteAlu, FlagOp, KeyScan, MemoryOrFlags, TestBusy, LibraryOp, StoreRecall, PlainControl;
  }

  ghost predicate StateOk(chip: Chip, s: State, w: Paper) {
    PrinterOk(chip, s.prn, s.flags.busy, w.texts, w.marks)
  }

  lemma PrintOpOk(chip: Chip, s: State, op: bv16, w: Paper)
    requires IsPrintOp(op) && BlankGlyph(chip) && StateOk(chip, s, w)
    ensures StateOk(chip, Execute(chip, s, op), w)
  {
    hide StateOk, OutPrint, OutPrintFunction, PrintClear, PrintStep, PrintLine, PrintFeed, BlankGlyph, Execute;
    hide InCard, OutCard, CardOff, CardRead, CardWrite, KeyToR5, R5ToKey, ArmRamOp, Argument, IsPeripheral;
    PrintOpIsPeripheral(chip, s, op);
    EachPrintOpOk(chip, s, w);
  }

  lemma EachPrintOpOk(chip: Chip, s: State, w: Paper)
    requires BlankGlyph(chip) && StateOk(chip, s, w)
    ensures StateOk(chip, OutPrint(chip, s), w) && StateOk(chip, OutPrintFunction(chip, s), w)
    ensures StateOk(chip, PrintClear(s), w) && StateOk(chip, PrintStep(s), w)
    ensures StateOk(chip, PrintLine(s), w) && StateOk(chip, PrintFeed(s), w)
  {
    hide PrinterOk, OutPrint, OutPrintFunction, PrintClear, PrintStep, PrintLine, PrintFeed, BlankGlyph;
    BufferOpsOk(chip, s, w);
    BufferOpsKeepBusy(chip, s);
    PrintLineOk(chip, s, w);
    PrintFeedOk(chip, s, w);
  }

  lemma PerformOk(chip: Chip, s: State, op: bv16, w: Paper)
    requires BlankGlyph(chip) && PrinterOk(chip, s.prn, s.flags.busy, w.texts, w.marks)
    ensures var t := Perform(chip, s, op);
            PrinterOk(chip, t.prn, t.flags.busy, w.texts, w.marks)
  {
    hide PrinterOk, BlankGlyph, IsPrintOp, Enter, Branch, Execute, Redirect, LatchPreg;
    PerformKeeps(chip, s, op);
    if IsPrintOp(op) {
      PrintOpIsNoBranch(op);
      var e := Enter(s);
      AroundKeepsBoth(s, op);
      PrintOpOk(chip, e, op, w);
      var x := Execute(chip, e, op);
      AroundKeepsBoth(x, op);
      AroundKeepsBoth(Redirect(x), op);
    }
  }

  lemma PrintOpIsNoBranch(op: bv16)
    requires IsPrintOp(op)
    ensures !IsBranch(op)
  {
  }

  /** Begin's only effect is COND's restore. */
  lemma BeginKeepsPrinter(chip: Chip, s: State)
    ensures SamePrinter(s, Begin(chip, s))
  {
    hide IsBranch;
  }

  lemma StepOk(chip: Chip, w: Paper)
    requires BlankGlyph(chip) && PaperOk(chip, w)
    ensures PaperOk(chip, w.(cpu := Step(chip, w.cpu)))
  {
    hide PrinterOk, CountedDown, BlankGlyph, Begin, Perform;
    CountdownOk(chip, w.cpu.prn, w.cpu.flags.busy, w.texts, w.marks);
    var c := Countdown(w.cpu);
    BeginKeepsPrinter(chip, c);
    var t := Begin(chip, c);
    PerformOk(chip, t, chip.rom(t.addr), w);
  }

  // ---------------------------------------------------------------- whole runs

  datatype Action = Tick | TakeTexts | TakeMarks | Restart | Insert(data: seq<bv8>) | Eject | Keys(key: KeyMatrix)

  /** One step of the CPU, or something its host does between steps. */
  function Act(chip: Chip, w: Paper, a: Action): Paper {
    match a
    case Tick => w.(cpu := Step(chip, w.cpu))
    case TakeTexts => Paper(w.cpu.(prn := w.cpu.prn.(lines := [])), w.texts + w.cpu.prn.lines, w.marks)
    case TakeMarks => Paper(w.cpu.(prn := w.cpu.prn.(codeLines := [])), w.texts, w.marks + w.cpu.prn.codeLines)
    case Restart => w.(cpu := Reset(w.cpu))
    case Insert(data) => w.(cpu := InsertCard(chip, w.cpu, data))
    case Eject => w.(cpu := CardEject(chip, w.cpu).0)
    case Keys(key) => w.(cpu := w.cpu.(key := key))
  }

  lemma RestartOk(chip: Chip, w: Paper)
    requires PaperOk(chip, w)
    ensures PaperOk(chip, w.(cpu := Reset(w.cpu)))
  {
    hide InStep, LineOk, FlushPending;
    FlushKeepsStep(chip, w.cpu.prn, w.texts, w.marks, PRINTER_LINE_CYCLES - w.cpu.prn.busyCycles);
  }

  lemma HostOk(chip: Chip, w: Paper, a: Action)
    requires PaperOk(chip, w) && !a.Tick? && !a.Restart?
    ensures PaperOk(chip, Act(chip, w, a))
  {
    hide PrinterOk, PressSwitch, ReleaseSwitch, BankSlice;
    if a.TakeTexts? || a.TakeMarks? {
      TakenOk(chip, w.cpu.prn, w);
    }
  }

  lemma TakenOk(chip: Chip, p: Printer, w: Paper)
    requires PrinterOk(chip, p, w.cpu.flags.busy, w.texts, w.marks)
    ensures PrinterOk(chip, p.(lines := []), w.cpu.flags.busy, w.texts + p.lines, w.marks)
    ensures PrinterOk(chip, p.(codeLines := []), w.cpu.flags.busy, w.texts, w.marks + p.codeLines)
  {
    hide InStep, LineOk;
    assert (w.texts + p.lines) + [] == w.texts + p.lines;
    assert (w.marks + p.codeLines) + [] == w.marks + p.codeLines;
  }

  lemma ActOk(chip: Chip, w: Paper, a: Action)
    requires BlankGlyph(chip) && PaperOk(chip, w)
    ensures PaperOk(chip, Act(chip, w, a))
  {
    hide PaperOk, Reset, BlankGlyph;
    if a.Tick? {
      StepOk(chip, w);
    } else if a.Restart? {
      RestartOk(chip, w);
    } else {
      HostOk(chip, w, a);
    }
  }

  lemma {:induction false} RunOk(chip: Chip, w: Paper, acts: seq<Action>)
    requires BlankGlyph(chip) && PaperOk(chip, w)
    ensures PaperOk(chip, Run(chip, w, acts))
    decreases |acts|
  {
    hide PaperOk, BlankGlyph, Act;
    if acts != [] {
      ActOk(chip, w, acts[0]);
      RunOk(chip, Act(chip, w, acts[0]), acts[1..]);
    }
  }

  function Run(chip: Chip, w: Paper, acts: seq<Action>): Paper
    decreases |acts|
  {
    if acts == [] then w else Run(chip, Act(chip, w, acts[0]), acts[1..])
  }

  /** A CPU whose printer has never been used, with nothing taken from it. */
  predicate Unused(w: Paper) {
    var p := w.cpu.prn;
    w.texts == [] && w.marks == [] && p.lines == [] && p.codeLines == [] && p.pending == None && p.busyCycles == 0
    && !p.ready && !w.cpu.flags.busy
  }

  /**
   Printer conservation: from a printer never used, any run of steps and host actions gives
   as many text lines as code lines, one more while a line is in progress; line k of one
   spells line k of the other; BUSY is set exactly while the countdown runs.
   */
  lemma PrinterConservation(chip: Chip, w: Paper, acts: seq<Action>)
    requires BlankGlyph(chip) && Unused(w)
    ensures var v := Run(chip, w, acts);
            && |Texts(v)| == |Marks(v)| + (if v.cpu.prn.pending.Some? then 1 else 0)
            && (forall k :: 0 <= k < |Marks(v)| ==> Spells(chip, Texts(v)[k], Marks(v)[k].codes))
            && (v.cpu.prn.pending.Some? ==> Spells(chip, Texts(v)[|Marks(v)|], v.cpu.prn.pending.value))
            && (v.cpu.flags.busy <==> v.cpu.prn.busyCycles > 0)
            && (v.cpu.prn.pending.Some? ==> 0 < v.cpu.prn.busyCycles <= PRINTER_LINE_CYCLES)
  {
    hide Run, Spells, LineOk, BlankGlyph;
    assert PaperOk(chip, w);
    RunOk(chip, w, acts);
  }

  // ---------------------------------------------------------------- ink of a cut line

  /** Column `j` of row `r` has started `elapsed` cycles into the line. */
  predicate Started(r: nat, j: nat, elapsed: nat) {
    r * 508 + 18 + j * 64 <= elapsed
  }

  /** Started columns of row `r` among the first `n`. */
  function RowInk(r: nat, n: nat, elapsed: nat): nat
    decreases n
  {
    if n == 0 then 0 else RowInk(r, n - 1, elapsed) + (if Started(r, n - 1, elapsed) then 1 else 0)
  }

  /** Started columns of the first `rows` rows, five to a row. */
  function Ink(rows: nat, elapsed: nat): nat {
    if rows == 0 then 0 else Ink(rows - 1, elapsed) + RowInk(rows - 1, 5, elapsed)
  }

  /** Five columns fit in a row before the next row starts. */
  lemma RowInkIs(r: nat, elapsed: nat)
    ensures elapsed >= (r + 1) * 508 ==> RowInk(r, 5, elapsed) == 5
    ensures elapsed < r * 508 + 18 ==> RowInk(r, 5, elapsed) == 0
    ensures r * 508 + 18 <= elapsed < (r + 1) * 508 ==>
              RowInk(r, 5, elapsed) == Min(5, (elapsed - r * 508 - 18) / 64 + 1)
  {
    assert RowInk(r, 5, elapsed) == RowInk(r, 4, elapsed) + (if Started(r, 4, elapsed) then 1 else 0);
    assert RowInk(r, 4, elapsed) == RowInk(r, 3, elapsed) + (if Started(r, 3, elapsed) then 1 else 0);
    assert RowInk(r, 3, elapsed) == RowInk(r, 2, elapsed) + (if Started(r, 2, elapsed) then 1 else 0);
    assert RowInk(r, 2, elapsed) == RowInk(r, 1, elapsed) + (if Started(r, 1, elapsed) then 1 else 0);
    assert RowInk(r, 1, elapsed) == RowInk(r, 0, elapsed) + (if Started(r, 0, elapsed) then 1 else 0);
  }

  lemma {:induction false} InkOfRows(rows: nat, elapsed: nat)
    ensures elapsed >= rows * 508 ==> Ink(rows, elapsed) == 5 * rows
    decreases rows
  {
    if rows > 0 {
      InkOfRows(rows - 1, elapsed);
      RowInkIs(rows - 1, elapsed);
    }
  }

  lemma {:induction false} NoInkBelow(done: nat, rows: nat, elapsed: nat)
    requires done <= rows && elapsed < done * 508 + 18
    ensures Ink(rows, elapsed) == Ink(done, elapsed)
    decreases rows
  {
    if done < rows {
      NoInkBelow(done, rows - 1, elapsed);
      RowInkIs(rows - 1, elapsed);
    }
  }

  /** A cut line carries exactly the columns whose strokes had started. */
  lemma CutShowsStartedColumns(codes: seq<bv8>, elapsed: nat)
    ensures var cut := CutLine(codes, elapsed);
            && cut.rowCount <= 7 && cut.partialColumns <= 5 && cut.codes == codes
            && 5 * cut.rowCount + cut.partialColumns == Ink(7, elapsed)
  {
    hide Ink, RowInk;
    var rows := elapsed / 508;
    if rows >= 7 {
      InkOfRows(7, elapsed);
    } else {
      InkOfRows(rows, elapsed);
      RowInkIs(rows, elapsed);
      InkSplits(rows, elapsed);
      if elapsed % 508 >= 18 {
        NoInkBelow(rows + 1, 7, elapsed);
      } else {
        NoInkBelow(rows, 7, elapsed);
      }
    }
  }

  lemma InkSplits(rows: nat, elapsed: nat)
    ensures Ink(rows + 1, elapsed) == Ink(rows, elapsed) + RowInk(rows, 5, elapsed)
  {
  }

  /** How long the last started column of a cut line was heated: since its start, at most 255 cycles of it. */
  lemma CutHeat(codes: seq<bv8>, elapsed: nat)
    ensures var cut := CutLine(codes, elapsed);
            cut.partialColumns > 0 ==>
              && Started(cut.rowCount, cut.partialColumns - 1, elapsed)
              && cut.partialHeat == Min(255, elapsed - (cut.rowCount * 508 + 18 + (cut.partialColumns - 1) * 64))
              && (cut.partialColumns < 5 ==> !Started(cut.rowCount, cut.partialColumns, elapsed))
  {
  }
}
