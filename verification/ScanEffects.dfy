/** What the keyboard scan finds in the active row: the one line asked for that is pressed, if there is just one. */
module ScanEffects {
  import opened Words
  import opened Bits
  import opened Core
  import opened FlagEffects
  import opened ControlEffects
  import opened PeripheralEffects
  import I = InstructionSet

  /** A line of the row that is asked for and pressed. */
  predicate Hit(row: bv8, lines: I.Lines, k: bv8)
    requires k < 7
  {
    BitOn(row, k) && On(lines, k as bv16)
  }

  /** Exactly this line of the row is hit. */
  ghost predicate OnlyHit(row: bv8, lines: I.Lines, k: bv8)
    requires k < 7
  {
    forall j: bv8 :: j < 7 ==> (Hit(row, lines, j) <==> j == k)
  }

  function Pressed(row: bv8, lines: I.Lines): bv8 { row & lines as bv8 }

  lemma ScanDecodes(all: bool, lines: I.Lines)
    ensures var op := I.ScanCode(all, lines);
            !IsBranch(op) && High(op) == 0x0800 && (ScansAll(op) <==> all)
  {
  }

  lemma PressedIs(all: bool, lines: I.Lines, row: bv8)
    ensures PressedIn(row, I.ScanCode(all, lines)) == var k := Pressed(row, lines); if k & (k - 1) != 0 then 0 else k
  {
    WantedIs(all, lines);
    hide I.ScanCode;
  }

  lemma WantedIs(all: bool, lines: I.Lines)
    ensures var opcode := I.ScanCode(all, lines);
            ((((opcode & 0x07) | ((opcode >> 1) & 0x78)) ^ 0x7F) & 0xFF) as bv8 == lines as bv8
  {
  }

  lemma HitIs(row: bv8, lines: I.Lines, k: bv8)
    requires k < 7
    ensures BitOn(Pressed(row, lines), k) <==> Hit(row, lines, k)
  {
  }

  lemma PressedBelow(row: bv8, lines: I.Lines)
    ensures Pressed(row, lines) & 0x80 == 0
  {
  }

  lemma ScanExecutes(chip: Chip, e: State, op: bv16)
    requires !IsBranch(op) && High(op) == 0x0800
    ensures Execute(chip, e, op) == KeyScan(e, op)
  {
    hide FlagOp, KeyScan, Control, ExecuteAlu, IsBranch;
  }

  /** Of the seven lines exactly this one is on. */
  ghost predicate OneOn(k: bv8, line: bv8) {
    forall j: bv8 :: j < 7 ==> (BitOn(k, j) <==> j == line)
  }

  lemma OneLine(k: bv8, line: bv8)
    requires line < 7 && k & 0x80 == 0 && OneOn(k, line)
    ensures k != 0 && k & (k - 1) == 0 && LowestBit(k) == line as bv16
  {
    assert BitOn(k, 0) == (line == 0) && BitOn(k, 1) == (line == 1) && BitOn(k, 2) == (line == 2) && BitOn(k, 3) == (line == 3);
    assert BitOn(k, 4) == (line == 4) && BitOn(k, 5) == (line == 5) && BitOn(k, 6) == (line == 6);
    assert k == 1 << line;
  }

  lemma SingleLine(line: bv8, j: bv8)
    requires line < 7 && j < 7
    ensures BitOn(1 << line, j) <==> j == line
  {
  }

  /** A word with no line on or with more than one. */
  lemma NotOneLine(k: bv8)
    requires k & 0x80 == 0 && forall line: bv8 :: line < 7 ==> !OneOn(k, line)
    ensures k == 0 || k & (k - 1) != 0
  {
    if k != 0 && k & (k - 1) == 0 {
      var line := LineOf(k);
      forall j: bv8 | j < 7 ensures BitOn(k, j) <==> j == line {
        SingleLine(line, j);
      }
      assert OneOn(k, line);
    }
  }

  lemma LineOf(k: bv8) returns (line: bv8)
    requires k & 0x80 == 0 && k != 0 && k & (k - 1) == 0
    ensures line < 7 && k == 1 << line
  {
    line := if k == 1 then 0 else if k == 2 then 1 else if k == 4 then 2 else if k == 8 then 3 else if k == 16 then 4 else if k == 32 then 5 else 6;
  }

  lemma ScanIs(chip: Chip, e: State, all: bool, lines: I.Lines)
    ensures var k := Found(e.key[e.digit], lines);
            Work(chip, e, I.Scan(all, lines)) ==
            e.(polled := true,
               flags := e.flags.(cond := e.flags.cond && k == 0, hold := e.flags.hold || (all && k == 0 && e.digit != 0)),
               kr := if all && k != 0 then KeyCode(e.digit, k) else e.kr)
  {
    hide I.ScanCode, Work, Execute, IsBranch, High, PressedIn, ScansAll, KeyCode, Found;
    WorkIs(chip, e, I.Scan(all, lines));
    ScanDecodes(all, lines);
    ScanExecutes(chip, e, I.ScanCode(all, lines));
    FoundIs(all, lines, e.key[e.digit]);
  }

  /** The line found, as a word; none on a chord. */
  function Found(row: bv8, lines: I.Lines): bv8 {
    var k := Pressed(row, lines);
    if k & (k - 1) != 0 then 0 else k
  }

  lemma FoundIs(all: bool, lines: I.Lines, row: bv8)
    ensures PressedIn(row, I.ScanCode(all, lines)) == Found(row, lines)
  {
    PressedIs(all, lines, row);
  }

  lemma KeyCodeBits(row: Nibble, k: bv8, line: bv8, p: Position)
    requires line < 7 && LowestBit(k) == line as bv16
    ensures On(KeyCode(row, k), p) <==> (4 <= p < 8 && BitOfDigit(row, p - 4)) || (8 <= p < 11 && On(line as bv16, p - 8))
  {
    DigitBits(row, if 4 <= p then p - 4 else 0);
    DigitFits(row);
    CodeWord(row as bv16, line as bv16, p);
    assert KeyCode(row, k) == ((row as bv16) << 4) | (((line as bv16) << 8) & 0x0700);
    hide KeyCode, BitOfDigit, On, LowestBit;
  }

  lemma CodeWord(row: bv16, line: bv16, p: Position)
    requires row < 16 && line < 8
    ensures On((row << 4) | ((line << 8) & 0x0700), p) <==> (4 <= p < 8 && On(row, p - 4)) || (8 <= p < 11 && On(line, p - 8))
  {
  }

  lemma HitsAre(row: bv8, lines: I.Lines, k: bv8)
    requires k < 7
    ensures OnlyHit(row, lines, k) <==> OneOn(Pressed(row, lines), k)
  {
    forall j: bv8 | j < 7 ensures BitOn(Pressed(row, lines), j) <==> Hit(row, lines, j) {
      HitIs(row, lines, j);
    }
    hide BitOn, Hit, Pressed;
  }

  /**
   A scan that hits exactly one line clears COND; a scan of all rows also puts the row into KR bits
   4 to 7 and the line into bits 8 to 10, and nothing else into KR.
   */
  lemma ScanFinds(chip: Chip, e: State, all: bool, lines: I.Lines, k: bv8, p: Position)
    requires k < 7 && OnlyHit(e.key[e.digit], lines, k)
    ensures var t := Work(chip, e, I.Scan(all, lines));
            && t == e.(polled := true, kr := t.kr, flags := e.flags.(cond := false))
            && (!all ==> t.kr == e.kr)
            && (all ==> (On(t.kr, p) <==> (4 <= p < 8 && BitOfDigit(e.digit, p - 4)) || (8 <= p < 11 && On(k as bv16, p - 8))))
  {
    hide Work, KeyCode, LowestBit, On, BitOfDigit, OnlyHit, OneOn, Pressed, Found;
    var row := e.key[e.digit];
    HitsAre(row, lines, k);
    PressedBelow(row, lines);
    OneLine(Pressed(row, lines), k);
    ScanIs(chip, e, all, lines);
    FoundOne(row, lines);
    KeyCodeBits(e.digit, Pressed(row, lines), k, p);
  }

  lemma FoundOne(row: bv8, lines: I.Lines)
    ensures var k := Pressed(row, lines); Found(row, lines) == if k & (k - 1) != 0 then 0 else k
  {
  }

  /** Any other scan, of no hit or of a chord, leaves COND and KR alone; a scan of all rows waits on but for row 0. */
  lemma ScanMisses(chip: Chip, e: State, all: bool, lines: I.Lines)
    requires forall k: bv8 :: k < 7 ==> !OnlyHit(e.key[e.digit], lines, k)
    ensures Work(chip, e, I.Scan(all, lines)) ==
            e.(polled := true, flags := e.flags.(hold := e.flags.hold || (all && e.digit != 0)))
  {
    hide Work, KeyCode, OnlyHit, OneOn, Pressed, Found;
    var row := e.key[e.digit];
    forall k: bv8 | k < 7 ensures !OneOn(Pressed(row, lines), k) {
      HitsAre(row, lines, k);
    }
    PressedBelow(row, lines);
    NotOneLine(Pressed(row, lines));
    ScanIs(chip, e, all, lines);
    FoundOne(row, lines);
  }
}
