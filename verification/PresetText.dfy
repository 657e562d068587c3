/**
 A preset written out section by section reads as what it says: what goes into the initial load,
 into each reload stage and into a card's block, the order of the keystrokes, and nothing more.
 */
module PresetText {
  import opened Words
  import opened TextUtil
  import opened StateFile
  import opened ProgramListing
  import opened CardBlocks

  // ---------------------------------------------------------------- what a preset says

  /** Groups of ten registers, 80 steps, given to the program. */
  type Groups = g: nat | 1 <= g <= 12 witness 1

  /** The sections of a load; a partition by its groups of 80 steps, register and cue card lines as they are written. */
  datatype Load = Load(groups: Option<Groups>, rows: Option<seq<CodeRow>>, registers: Option<seq<string>>, cue: Option<seq<string>>)

  function PartitionRow(groups: Groups): string
  {
    "PARTITION: " + ThreeDigits(80 * groups - 1)
  }

  function LinesOfLoad(l: Load): seq<string>
  {
    (if l.groups.Some? then [PartitionRow(l.groups.value)] else [])
    + (if l.rows.Some? then ["PROGRAM:"] + Rows(l.rows.value) else [])
    + (if l.registers.Some? then ["REGISTERS:"] + l.registers.value else [])
    + (if l.cue.Some? then ["CUECARD:"] + l.cue.value else [])
  }

  /** A line that is no mark and no directive, and carries no comment. */
  predicate IsContent(line: string) {
    var u := ToUpper(line);
    && line != "" && StripInlineComment(line) == line && !IsInline(u) && !StartsWith(u, "END-CARD") && !StartsWith(u, "CARD:")
    && !StartsWith(u, "BANK:") && !StartsWith(u, "PROTECTED:") && !StartsWith(u, "PARTITION:") && !StartsWith(u, "PROGRAM:")
    && !StartsWith(u, "REGISTERS:") && !StartsWith(u, "CUECARD:") && !StartsWith(u, "KEYSTROKES:")
  }

  ghost predicate AllContent(lines: seq<string>) {
    forall i :: 0 <= i < |lines| ==> IsContent(lines[i])
  }

  ghost predicate LoadOk(l: Load) {
    && (l.registers.Some? ==> AllContent(l.registers.value)) && (l.cue.Some? ==> AllContent(l.cue.value))
  }

  function ValuesIn(x: Leaves, lines: seq<string>, hidden: bool): seq<RegisterValue> {
    if lines == [] then [] else x.register(lines[0], hidden).values + ValuesIn(x, lines[1..], hidden)
  }

  function ErrorsIn(x: Leaves, lines: seq<string>, hidden: bool): seq<Error> {
    if lines == [] then [] else x.register(lines[0], hidden).errors + ErrorsIn(x, lines[1..], hidden)
  }

  /** The codes at consecutive steps from `first` on. */
  function PlacedFrom(codes: seq<Keycode>, first: nat): (r: seq<ProgramStep>)
    ensures |r| == |codes|
  {
    seq(|codes|, i requires 0 <= i < |codes| => ProgramStep(first + i, codes[i]))
  }

  /** What a load says. */
  function Says(x: Leaves, l: Load, first: nat, hidden: bool): Stage {
    Stage(if l.groups.Some? then Some(80 * l.groups.value - 1) else None,
          if l.rows.Some? then PlacedFrom(Joined(l.rows.value), first) else [],
          if l.registers.Some? then ValuesIn(x, l.registers.value, hidden) else [],
          l.cue)
  }

  function LoadErrors(x: Leaves, l: Load, hidden: bool): seq<Error> {
    if l.registers.Some? then ErrorsIn(x, l.registers.value, hidden) else []
  }

  // ---------------------------------------------------------------- where sections go

  /** The load under way: an open block's, else the open stage's, else the preset's own. */
  function Here(p: Parse): Stage {
    if p.card.Some? then var d := p.card.value.def; Stage(d.partition, d.steps, d.registers, d.cue)
    else if InStage(p) then StageOf(p)
    else Stage(if p.r.explicitPartition then Some(p.r.partition) else None, p.r.steps, p.r.registers, p.r.cue)
  }

  function WithHere(p: Parse, s: Stage): Parse {
    if p.card.Some? then
      var d := p.card.value.def;
      p.(card := Some(p.card.value.(def := d.(partition := s.partition, steps := s.steps, registers := s.registers, cue := s.cue))))
    else if InStage(p) then WithStage(p, s)
    else
      p.(r := p.r.(partition := if s.partition.Some? then s.partition.value else p.r.partition, explicitPartition := s.partition.Some?,
                   steps := s.steps, registers := s.registers, cue := s.cue))
  }

  /** Sections may come: the load under way is open. */
  predicate Ready(p: Parse) {
    (p.card.Some? ==> p.card.value.def.bank > 0) && (p.card.None? ==> OpenStage(p) == p)
  }

  /** `q` is `p` with another load under way, more errors, and perhaps in another section at another step. */
  ghost predicate Became(p: Parse, q: Parse, s: Stage, errors: seq<Error>) {
    && Here(q) == s && q == WithErrors(WithHere(p, s), errors).(section := q.section, step := q.step)
    && (Here(p).partition.Some? ==> s.partition.Some?)
  }

  lemma Stays(p: Parse)
    ensures Became(p, p, Here(p), [])
  {
    assert p.r.errors + [] == p.r.errors;
    if p.card.None? && InStage(p) {
      assert p.r.stages[p.reload.value := StageOf(p)] == p.r.stages;
    }
  }

  lemma Further(p: Parse, q: Parse, r: Parse, s: Stage, t: Stage, e: seq<Error>, f: seq<Error>)
    requires Became(p, q, s, e) && Became(q, r, t, f)
    ensures Became(p, r, t, e + f)
  {
    assert p.r.errors + e + f == p.r.errors + (e + f);
    if p.card.Some? {
      FurtherInBlock(p, q, r, s, t, e, f);
    } else if InStage(p) {
      FurtherInStage(p, q, r, s, t, e, f);
    } else {
      FurtherInLoad(p, q, r, s, t, e, f);
    }
  }

  lemma FurtherInBlock(p: Parse, q: Parse, r: Parse, s: Stage, t: Stage, e: seq<Error>, f: seq<Error>)
    requires Became(p, q, s, e) && Became(q, r, t, f) && p.card.Some?
    requires p.r.errors + e + f == p.r.errors + (e + f)
    ensures Became(p, r, t, e + f)
  {
    hide InStage;
  }

  lemma FurtherInStage(p: Parse, q: Parse, r: Parse, s: Stage, t: Stage, e: seq<Error>, f: seq<Error>)
    requires Became(p, q, s, e) && Became(q, r, t, f) && p.card.None? && InStage(p)
    requires p.r.errors + e + f == p.r.errors + (e + f)
    ensures Became(p, r, t, e + f)
  {
    assert p.r.stages[p.reload.value := s][p.reload.value := t] == p.r.stages[p.reload.value := t];
  }

  lemma FurtherInLoad(p: Parse, q: Parse, r: Parse, s: Stage, t: Stage, e: seq<Error>, f: seq<Error>)
    requires Became(p, q, s, e) && Became(q, r, t, f) && p.card.None? && !InStage(p)
    requires p.r.errors + e + f == p.r.errors + (e + f)
    ensures Became(p, r, t, e + f)
  {
  }

  lemma BecameReady(p: Parse, q: Parse, s: Stage, e: seq<Error>)
    requires Became(p, q, s, e) && Ready(p)
    ensures Ready(q) && (q.card.Some? <==> p.card.Some?)
    ensures p.card.Some? ==> q.card.value.def.bank == p.card.value.def.bank
  {
  }

  // ---------------------------------------------------------------- marks

  lemma Differs(s: string, prefix: string, k: nat)
    requires k < |s| && k < |prefix| && s[k] != prefix[k]
    ensures !StartsWith(s, prefix)
  {
    if |s| >= |prefix| {
      assert s[..|prefix|][k] == s[k];
    }
  }

  /** A mark that shares its first letter with no directive. */
  lemma NotInline(u: string)
    requires u != "" && u[0] != 'S' && u[0] != 'P' && u[0] != 'M'
    ensures !IsInline(u)
  {
    Differs(u, "SOLID-STATE-MODULE:", 0);
    Differs(u, "PRINTER:", 0);
    Differs(u, "SKIP-RESET:", 0);
    Differs(u, "MODEL:", 0);
  }

  lemma NotInlineP(u: string)
    requires |u| >= 3 && u[0] == 'P' && (u[1] != 'R' || u[2] != 'I')
    ensures !IsInline(u)
  {
    Differs(u, "SOLID-STATE-MODULE:", 0);
    Differs(u, "PRINTER:", if u[1] != 'R' then 1 else 2);
    Differs(u, "SKIP-RESET:", 0);
    Differs(u, "MODEL:", 0);
  }

  /** A line's mark among those that open a section: it is stripped already, in capitals, and no other mark. */
  datatype Mark = Bank | Protected | Partition | Program | Regs | Cue | Keys

  ghost predicate IsMark(line: string, mark: Mark) {
    && line != "" && StripInlineComment(line) == line && ToUpper(line) == line && !IsInline(line)
    && !StartsWith(line, "END-CARD") && !StartsWith(line, "CARD:")
    && (StartsWith(line, "BANK:") <==> mark == Bank) && (StartsWith(line, "PROTECTED:") <==> mark == Protected)
    && (StartsWith(line, "PARTITION:") <==> mark == Partition) && (StartsWith(line, "PROGRAM:") <==> mark == Program)
    && (StartsWith(line, "REGISTERS:") <==> mark == Regs) && (StartsWith(line, "CUECARD:") <==> mark == Cue)
    && (StartsWith(line, "KEYSTROKES:") <==> mark == Keys)
  }

  /** Capitals, digits and a few signs. */
  predicate Capital(c: char) { c == ' ' || c == ':' || c == '-' || '0' <= c <= '9' || 'A' <= c <= 'Z' }

  lemma CapitalText(line: string)
    requires line != "" && (forall i :: 0 <= i < |line| ==> Capital(line[i])) && line[|line| - 1] != ' ' && line[0] != ' '
    ensures StripInlineComment(line) == line && ToUpper(line) == line
  {
    NothingToStrip(line);
  }

  lemma NoBlockMark(u: string)
    requires |u| > 1 && u[0] != 'E' && (u[0] == 'C' ==> u[1] != 'A')
    ensures !StartsWith(u, "END-CARD") && !StartsWith(u, "CARD:")
  {
    Differs(u, "END-CARD", 0);
    Differs(u, "CARD:", if u[0] == 'C' then 1 else 0);
  }

  /** Marks of another first letter, or else of another second, third or fourth one. */
  lemma OtherMarks(u: string)
    requires |u| > 3
    ensures u[0] != 'B' ==> !StartsWith(u, "BANK:")
    ensures u[0] != 'R' ==> !StartsWith(u, "REGISTERS:")
    ensures u[0] != 'C' ==> !StartsWith(u, "CUECARD:")
    ensures u[0] != 'K' ==> !StartsWith(u, "KEYSTROKES:")
    ensures u[0] != 'P' || u[1] != 'A' ==> !StartsWith(u, "PARTITION:")
    ensures u[0] != 'P' || u[1] != 'R' || u[3] != 'G' ==> !StartsWith(u, "PROGRAM:")
    ensures u[0] != 'P' || u[1] != 'R' || u[3] != 'T' ==> !StartsWith(u, "PROTECTED:")
  {
    if u[0] != 'B' { Differs(u, "BANK:", 0); }
    if u[0] != 'R' { Differs(u, "REGISTERS:", 0); }
    if u[0] != 'C' { Differs(u, "CUECARD:", 0); }
    if u[0] != 'K' { Differs(u, "KEYSTROKES:", 0); }
    if u[0] != 'P' { Differs(u, "PARTITION:", 0); } else if u[1] != 'A' { Differs(u, "PARTITION:", 1); }
    if u[0] != 'P' { Differs(u, "PROGRAM:", 0); } else if u[1] != 'R' { Differs(u, "PROGRAM:", 1); } else if u[3] != 'G' { Differs(u, "PROGRAM:", 3); }
    if u[0] != 'P' { Differs(u, "PROTECTED:", 0); } else if u[1] != 'R' { Differs(u, "PROTECTED:", 1); } else if u[3] != 'T' { Differs(u, "PROTECTED:", 3); }
  }

  lemma Starts(line: string, prefix: string)
    requires |line| >= |prefix| && line[..|prefix|] == prefix
    ensures StartsWith(line, prefix)
  {
  }

  lemma ProgramText(line: string)
    requires line == "PROGRAM:"
    ensures IsMark(line, Program)
  {
    hide IsInline, StripInlineComment, ToUpper, StartsWith;
    CapitalText(line);
    NotInlineP(line);
    NoBlockMark(line);
    OtherMarks(line);
    Starts(line, "PROGRAM:");
  }

  lemma RegistersText(line: string)
    requires line == "REGISTERS:"
    ensures IsMark(line, Regs)
  {
    hide IsInline, StripInlineComment, ToUpper, StartsWith;
    CapitalText(line);
    NotInline(line);
    NoBlockMark(line);
    OtherMarks(line);
    Starts(line, "REGISTERS:");
  }

  lemma CueText(line: string)
    requires line == "CUECARD:"
    ensures IsMark(line, Cue)
  {
    hide IsInline, StripInlineComment, ToUpper, StartsWith;
    CapitalText(line);
    NotInline(line);
    NoBlockMark(line);
    OtherMarks(line);
    Starts(line, "CUECARD:");
  }

  lemma KeystrokesText(line: string)
    requires line == "KEYSTROKES:"
    ensures IsMark(line, Keys)
  {
    hide IsInline, StripInlineComment, ToUpper, StartsWith;
    CapitalText(line);
    NotInline(line);
    NoBlockMark(line);
    OtherMarks(line);
    Starts(line, "KEYSTROKES:");
  }

  /** A mark is a line of the open block, or of the preset. */
  lemma MarkDispatched(x: Leaves, p: Parse, line: string, mark: Mark)
    requires IsMark(line, mark)
    ensures ReadLine(x, p, line) == if p.card.Some? then CardLine(x, p, line, line) else SectionLine(x, p, line, line)
  {
    hide IsInline, StartsWith, StripInlineComment, ToUpper, CardLine, SectionLine, CloseCard, OpenCard, InlineLine;
  }

  lemma ProgramMark(x: Leaves, p: Parse, line: string)
    requires Ready(p) && line == "PROGRAM:"
    ensures ReadLine(x, p, line) ==
            p.(section := InProgram, step := if p.card.Some? then 240 * (p.card.value.def.bank - 1) else p.step)
  {
    hide IsInline, StartsWith, StripInlineComment, ToUpper, OpenStage, CloseCard, ReadLine, ParsePartition, BankNumber, IsOn,
         Content, ReadCueMark, ReadPartitionLine;
    ProgramText(line);
    MarkDispatched(x, p, line, Program);
  }

  lemma RegistersMark(x: Leaves, p: Parse, line: string)
    requires Ready(p) && line == "REGISTERS:"
    ensures ReadLine(x, p, line) == p.(section := InRegisters)
  {
    hide IsInline, StartsWith, StripInlineComment, ToUpper, OpenStage, CloseCard, ReadLine, ParsePartition, BankNumber, IsOn,
         Content, ReadCueMark, ReadPartitionLine;
    RegistersText(line);
    MarkDispatched(x, p, line, Regs);
  }

  lemma CueMark(x: Leaves, p: Parse, line: string)
    requires Ready(p) && line == "CUECARD:"
    ensures ReadLine(x, p, line) == WithHere(p, Here(p).(cue := Some([]))).(section := InCue)
  {
    hide IsInline, StartsWith, StripInlineComment, ToUpper, OpenStage, CloseCard, ReadLine, ParsePartition, BankNumber, IsOn,
         Content, ReadPartitionLine;
    CueText(line);
    MarkDispatched(x, p, line, Cue);
  }

  lemma PartitionText(line: string, groups: Groups)
    requires line == PartitionRow(groups)
    ensures IsMark(line, Partition)
  {
    hide IsInline, StripInlineComment, ToUpper, StartsWith;
    CapitalText(line);
    NotInlineP(line);
    NoBlockMark(line);
    OtherMarks(line);
    assert line[..10] == "PARTITION:";
    Starts(line, "PARTITION:");
  }

  lemma Grouped(groups: Groups, from: nat)
    requires from % 80 == 0 && 0 < from <= 80 * groups
    ensures RoundSteps(80 * groups, from) == 80 * groups
    decreases 80 * groups - from
  {
    if from < 80 * groups {
      Grouped(groups, from + 80);
    }
  }

  lemma PartitionReads(groups: Groups, rest: string)
    requires rest == " " + ThreeDigits(80 * groups - 1)
    ensures ParsePartition(Trim(rest)) == Some(80 * groups - 1)
  {
    hide Value, RoundSteps, Trim;
    var s := ThreeDigits(80 * groups - 1);
    TrimLeading(s);
    TrimKeeps(s);
    FindNone(s, {'.'});
    assert s[..|s|] == s;
    ThreeReads(80 * groups - 1);
    Grouped(groups, 80);
  }

  lemma ThreeReads(n: nat)
    requires n < 1000
    ensures ParseDec(ThreeDigits(n)) == Some(n)
  {
    StepReads(n, n);
  }

  lemma PartitionMark(x: Leaves, p: Parse, line: string, groups: Groups)
    requires Ready(p) && line == PartitionRow(groups)
    ensures Became(p, ReadLine(x, p, line), Here(p).(partition := Some(80 * groups - 1)), []) && ReadLine(x, p, line).step == p.step
  {
    hide IsInline, StartsWith, StripInlineComment, ToUpper, OpenStage, CloseCard, ReadLine, ParsePartition, BankNumber, IsOn,
         Content, ReadCueMark, RoundSteps, Trim;
    PartitionText(line, groups);
    MarkDispatched(x, p, line, Partition);
    assert line[10..] == " " + ThreeDigits(80 * groups - 1);
    PartitionReads(groups, line[10..]);
    assert p.r.errors + [] == p.r.errors;
  }

  // ---------------------------------------------------------------- lines inside sections

  lemma ContentDispatched(x: Leaves, p: Parse, line: string)
    requires IsContent(line) && p.section != Nowhere && p.section != InPartition
    requires p.card.Some? ==> p.section != InKeystrokes
    ensures ReadLine(x, p, line) == Content(x, p, line)
  {
    hide IsInline, StartsWith, StripInlineComment, ToUpper, OpenStage, CloseCard, ParsePartition, BankNumber, IsOn, Content,
         ReadCueMark, ReadPartitionLine, InlineLine, OpenCard, WithErrors, WithDef;
  }

  lemma RegisterLineAdds(x: Leaves, p: Parse, line: string)
    requires p.section == InRegisters && IsContent(line)
    ensures var q, l := ReadLine(x, p, line), x.register(line, x.allowHidden && p.card.None?);
            Became(p, q, Here(p).(registers := Here(p).registers + l.values), l.errors) && q.section == InRegisters
  {
    hide ReadLine, IsContent, ReadProgram, ReadKeystrokes, AddCue;
    ContentDispatched(x, p, line);
  }

  lemma {:induction false} RegisterLinesAdd(x: Leaves, p: Parse, lines: seq<string>)
    requires p.section == InRegisters && AllContent(lines)
    ensures var q, hidden := ReadLines(x, p, lines), x.allowHidden && p.card.None?;
            Became(p, q, Here(p).(registers := Here(p).registers + ValuesIn(x, lines, hidden)), ErrorsIn(x, lines, hidden))
    decreases |lines|
  {
    hide Became, Here, ReadLine, IsContent;
    var hidden := x.allowHidden && p.card.None?;
    var h := Here(p);
    if lines == [] {
      Stays(p);
      assert h.(registers := h.registers + []) == h;
    } else {
      var q := ReadLine(x, p, lines[0]);
      RegisterLineAdds(x, p, lines[0]);
      var l := x.register(lines[0], hidden);
      var s := h.(registers := h.registers + l.values);
      SameCard(p, q, s, l.errors);
      RegisterLinesAdd(x, q, lines[1..]);
      var more := ValuesIn(x, lines[1..], hidden);
      assert s.registers + more == h.registers + (l.values + more);
      Further(p, q, ReadLines(x, q, lines[1..]), s, s.(registers := s.registers + more), l.errors, ErrorsIn(x, lines[1..], hidden));
    }
  }

  lemma NoErrors()
    ensures var none: seq<Error> := []; none + none == none
  {
  }

  lemma SameCard(p: Parse, q: Parse, s: Stage, e: seq<Error>)
    requires Became(p, q, s, e)
    ensures Here(q) == s && (q.card.Some? <==> p.card.Some?)
  {
  }

  lemma CueLineAdds(x: Leaves, p: Parse, line: string)
    requires p.section == InCue && IsContent(line) && Here(p).cue.Some?
    ensures var q := ReadLine(x, p, line);
            Became(p, q, Here(p).(cue := Some(Here(p).cue.value + [line])), []) && q.section == InCue
  {
    hide ReadLine, IsContent, ReadProgram, ReadKeystrokes, AddRegisters;
    ContentDispatched(x, p, line);
    assert p.r.errors + [] == p.r.errors;
  }

  lemma {:induction false} CueLinesAdd(x: Leaves, p: Parse, lines: seq<string>)
    requires p.section == InCue && AllContent(lines) && Here(p).cue.Some?
    ensures Became(p, ReadLines(x, p, lines), Here(p).(cue := Some(Here(p).cue.value + lines)), [])
    decreases |lines|
  {
    hide Became, Here, ReadLine, IsContent;
    var h := Here(p);
    if lines == [] {
      Stays(p);
      assert h.cue.value + [] == h.cue.value;
      assert h.(cue := Some(h.cue.value + lines)) == h;
    } else {
      var q := ReadLine(x, p, lines[0]);
      CueLineAdds(x, p, lines[0]);
      var s := h.(cue := Some(h.cue.value + [lines[0]]));
      SameCard(p, q, s, []);
      CueLinesAdd(x, q, lines[1..]);
      assert h.cue.value + [lines[0]] + lines[1..] == h.cue.value + lines;
      Further(p, q, ReadLines(x, q, lines[1..]), s, h.(cue := Some(h.cue.value + lines)), [], []);
      NoErrors();
    }
  }

  // ---------------------------------------------------------------- sections

  function FirstOf(p: Parse): nat { if p.card.Some? && p.card.value.def.bank > 0 then 240 * (p.card.value.def.bank - 1) else p.step }

  lemma StepsBecame(p: Parse, q: Parse, r: Parse, added: seq<ProgramStep>)
    requires q == p.(section := q.section, step := q.step) && OnlySteps(q, r, added)
    ensures Became(p, r, Here(p).(steps := Here(p).steps + added), [])
  {
    assert p.r.errors + [] == p.r.errors;
  }

  lemma StandIsPlaced(added: seq<ProgramStep>, first: nat, codes: seq<Keycode>)
    requires StandFrom(added, first, codes)
    ensures added == PlacedFrom(codes, first)
  {
  }

  lemma OneAndRest(x: Leaves, p: Parse, line: string, lines: seq<string>)
    ensures ReadLines(x, p, [line] + lines) == ReadLines(x, ReadLine(x, p, line), lines)
  {
    hide ReadLine;
    assert ([line] + lines)[1..] == lines;
  }

  lemma ProgramSection(x: Leaves, p: Parse, rows: seq<CodeRow>)
    requires Ready(p)
    ensures Became(p, ReadLines(x, p, ["PROGRAM:"] + Rows(rows)),
                   Here(p).(steps := Here(p).steps + PlacedFrom(Joined(rows), FirstOf(p))), [])
  {
    hide Became, Here, ReadLine, ReadLines, OnlySteps, StandFrom;
    var line := "PROGRAM:";
    ProgramMark(x, p, line);
    var q := ReadLine(x, p, line);
    OneAndRest(x, p, line, Rows(rows));
    var added := ListingLands(x, q, rows);
    StandIsPlaced(added, q.step, Joined(rows));
    StepsBecame(p, q, ReadLines(x, q, Rows(rows)), added);
  }

  lemma RegistersSection(x: Leaves, p: Parse, lines: seq<string>)
    requires Ready(p) && AllContent(lines)
    ensures var hidden := x.allowHidden && p.card.None?;
            Became(p, ReadLines(x, p, ["REGISTERS:"] + lines),
                   Here(p).(registers := Here(p).registers + ValuesIn(x, lines, hidden)), ErrorsIn(x, lines, hidden))
  {
    hide Became, ReadLine, ReadLines, ValuesIn, ErrorsIn, AllContent;
    var line := "REGISTERS:";
    RegistersMark(x, p, line);
    var q := ReadLine(x, p, line);
    OneAndRest(x, p, line, lines);
    RegisterLinesAdd(x, q, lines);
    hide Here;
    assert Here(q) == Here(p) by { SameLoad(p, q); }
    MarkOnly(p, q);
    var hidden := x.allowHidden && p.card.None?;
    assert [] + ErrorsIn(x, lines, hidden) == ErrorsIn(x, lines, hidden);
    Further(p, q, ReadLines(x, q, lines), Here(p), Here(p).(registers := Here(p).registers + ValuesIn(x, lines, hidden)), [], ErrorsIn(x, lines, hidden));
  }

  lemma SameLoad(p: Parse, q: Parse)
    requires q == p.(section := q.section, step := q.step)
    ensures Here(q) == Here(p)
  {
  }

  lemma MarkOnly(p: Parse, q: Parse)
    requires q == p.(section := q.section, step := q.step)
    ensures Became(p, q, Here(p), [])
  {
    Stays(p);
  }

  lemma CueSection(x: Leaves, p: Parse, lines: seq<string>)
    requires Ready(p) && AllContent(lines)
    ensures Became(p, ReadLines(x, p, ["CUECARD:"] + lines), Here(p).(cue := Some(lines)), [])
  {
    hide ReadLine, ReadLines, AllContent;
    var line := "CUECARD:";
    CueMark(x, p, line);
    var q := ReadLine(x, p, line);
    OneAndRest(x, p, line, lines);
    CueOpened(p, q);
    hide Became, WithHere, Here;
    SameCard(p, q, Here(p).(cue := Some([])), []);
    CueLinesAdd(x, q, lines);
    assert [] + lines == lines;
    Further(p, q, ReadLines(x, q, lines), Here(p).(cue := Some([])), Here(p).(cue := Some(lines)), [], []);
    NoErrors();
  }

  lemma CueOpened(p: Parse, q: Parse)
    requires q == WithHere(p, Here(p).(cue := Some([]))).(section := InCue)
    ensures Became(p, q, Here(p).(cue := Some([])), []) && q.section == InCue
  {
    assert p.r.errors + [] == p.r.errors;
  }

  // ---------------------------------------------------------------- a load

  function GroupLines(l: Load): seq<string>
  {
    if l.groups.Some? then [PartitionRow(l.groups.value)] else []
  }

  function ProgramLines(l: Load): seq<string> {
    if l.rows.Some? then ["PROGRAM:"] + Rows(l.rows.value) else []
  }

  function RegisterLines(l: Load): seq<string> {
    if l.registers.Some? then ["REGISTERS:"] + l.registers.value else []
  }

  function CueLines(l: Load): seq<string> {
    if l.cue.Some? then ["CUECARD:"] + l.cue.value else []
  }

  const NOTHING := Stage(None, [], [], None)

  lemma GroupsRead(x: Leaves, p: Parse, l: Load)
    requires Ready(p) && LoadOk(l) && Here(p) == NOTHING
    ensures var q := ReadLines(x, p, GroupLines(l));
            && Became(p, q, NOTHING.(partition := if l.groups.Some? then Some(80 * l.groups.value - 1) else None), [])
            && q.step == p.step
  {
    hide Became, ReadLine, Ready, Here;
    if l.groups.Some? {
      var line := PartitionRow(l.groups.value);
      PartitionMark(x, p, line, l.groups.value);
      assert [line][1..] == [];
    } else {
      Stays(p);
    }
  }

  lemma ProgramRead(x: Leaves, p: Parse, l: Load, s: Stage)
    requires Ready(p) && Here(p) == s && s.steps == []
    ensures Became(p, ReadLines(x, p, ProgramLines(l)),
                   s.(steps := if l.rows.Some? then PlacedFrom(Joined(l.rows.value), FirstOf(p)) else []), [])
  {
    hide Became, ReadLine, Ready, Here, PlacedFrom;
    if l.rows.Some? {
      ProgramSection(x, p, l.rows.value);
      var placed := PlacedFrom(Joined(l.rows.value), FirstOf(p));
      assert [] + placed == placed;
    } else {
      Stays(p);
    }
  }

  lemma RegistersRead(x: Leaves, p: Parse, l: Load, s: Stage)
    requires Ready(p) && LoadOk(l) && Here(p) == s && s.registers == []
    ensures var hidden := x.allowHidden && p.card.None?;
            Became(p, ReadLines(x, p, RegisterLines(l)),
                   s.(registers := if l.registers.Some? then ValuesIn(x, l.registers.value, hidden) else []), LoadErrors(x, l, hidden))
  {
    hide Became, ReadLine, Ready, Here, AllContent;
    if l.registers.Some? {
      var hidden := x.allowHidden && p.card.None?;
      RegistersSection(x, p, l.registers.value);
      assert [] + ValuesIn(x, l.registers.value, hidden) == ValuesIn(x, l.registers.value, hidden);
    } else {
      Stays(p);
    }
  }

  lemma CueRead(x: Leaves, p: Parse, l: Load, s: Stage)
    requires Ready(p) && LoadOk(l) && Here(p) == s && s.cue == None
    ensures Became(p, ReadLines(x, p, CueLines(l)), s.(cue := l.cue), [])
  {
    hide Became, ReadLine, Ready, Here, AllContent;
    if l.cue.Some? {
      CueSection(x, p, l.cue.value);
    } else {
      Stays(p);
      assert s.(cue := l.cue) == s;
    }
  }

  /** A load is read into where it goes. */
  lemma LoadReads(x: Leaves, p: Parse, l: Load)
    requires Ready(p) && LoadOk(l) && Here(p) == NOTHING
    ensures var hidden := x.allowHidden && p.card.None?;
            Became(p, ReadLines(x, p, LinesOfLoad(l)), Says(x, l, FirstOf(p), hidden), LoadErrors(x, l, hidden))
  {
    hide Became, ReadLine, ReadLines, Ready, Here, GroupLines, ProgramLines, RegisterLines, CueLines, PlacedFrom, LoadOk, LoadErrors;
    PartsOfLoad(l);
    var hidden := x.allowHidden && p.card.None?;
    var said := Says(x, l, FirstOf(p), hidden);
    var a := ReadLines(x, p, GroupLines(l));
    GroupsRead(x, p, l);
    var s1 := NOTHING.(partition := said.partition);
    BecameReady(p, a, s1, []);
    SameCard(p, a, s1, []);
    var b := ReadLines(x, a, ProgramLines(l));
    ProgramRead(x, a, l, s1);
    var s2 := s1.(steps := said.steps);
    BecameReady(a, b, s2, []);
    SameCard(a, b, s2, []);
    var c := ReadLines(x, b, RegisterLines(l));
    RegistersRead(x, b, l, s2);
    var s3 := s2.(registers := said.registers);
    BecameReady(b, c, s3, LoadErrors(x, l, hidden));
    SameCard(b, c, s3, LoadErrors(x, l, hidden));
    CueRead(x, c, l, s3);
    var d := ReadLines(x, c, CueLines(l));
    assert s3.(cue := l.cue) == said;
    Further(p, a, b, s1, s2, [], []);
    NoErrors();
    Further(p, b, c, s2, s3, [], LoadErrors(x, l, hidden));
    assert [] + LoadErrors(x, l, hidden) == LoadErrors(x, l, hidden);
    Further(p, c, d, s3, said, LoadErrors(x, l, hidden), []);
    assert LoadErrors(x, l, hidden) + [] == LoadErrors(x, l, hidden);
    ReadAppend(x, p, GroupLines(l) + ProgramLines(l) + RegisterLines(l), CueLines(l));
    ReadAppend(x, p, GroupLines(l) + ProgramLines(l), RegisterLines(l));
    ReadAppend(x, p, GroupLines(l), ProgramLines(l));
  }

  lemma PartsOfLoad(l: Load)
    requires LoadOk(l)
    ensures LinesOfLoad(l) == GroupLines(l) + ProgramLines(l) + RegisterLines(l) + CueLines(l)
  {
  }

  // ---------------------------------------------------------------- keystrokes

  function EventsIn(x: Leaves, lines: seq<string>): seq<Event> {
    if lines == [] then [] else x.keystroke(lines[0]).events + EventsIn(x, lines[1..])
  }

  function KeyErrors(x: Leaves, lines: seq<string>): seq<Error> {
    if lines == [] then [] else x.keystroke(lines[0]).errors + KeyErrors(x, lines[1..])
  }

  predicate UsesCards(x: Leaves, lines: seq<string>) {
    lines != [] && (x.keystroke(lines[0]).usesCards || UsesCards(x, lines[1..]))
  }

  /** A parse with keystrokes added. */
  function WithKeys(p: Parse, events: seq<Event>, errors: seq<Error>, cards: bool): Parse {
    p.(r := p.r.(keystrokes := p.r.keystrokes + events, errors := p.r.errors + errors, usesCardReader := p.r.usesCardReader || cards))
  }

  lemma {:induction false} KeysRead(x: Leaves, p: Parse, lines: seq<string>)
    requires p.card.None? && p.section == InKeystrokes && AllContent(lines)
    ensures ReadLines(x, p, lines) == WithKeys(p, EventsIn(x, lines), KeyErrors(x, lines), UsesCards(x, lines))
    decreases |lines|
  {
    hide ReadLine, IsContent;
    if lines == [] {
      assert p.r.keystrokes + [] == p.r.keystrokes && p.r.errors + [] == p.r.errors;
    } else {
      var l := x.keystroke(lines[0]);
      KeyLine(x, p, lines[0]);
      var q := ReadLine(x, p, lines[0]);
      KeysRead(x, q, lines[1..]);
      KeysTwice(p, l.events, EventsIn(x, lines[1..]), l.errors, KeyErrors(x, lines[1..]), l.usesCards, UsesCards(x, lines[1..]));
    }
  }

  lemma KeyLine(x: Leaves, p: Parse, line: string)
    requires p.card.None? && p.section == InKeystrokes && IsContent(line)
    ensures var l := x.keystroke(line); ReadLine(x, p, line) == WithKeys(p, l.events, l.errors, l.usesCards)
  {
    hide ReadLine, IsContent, ReadProgram, ReadRegister, AddCue;
    ContentDispatched(x, p, line);
  }

  lemma KeysTwice(p: Parse, a: seq<Event>, b: seq<Event>, e: seq<Error>, f: seq<Error>, c: bool, d: bool)
    ensures WithKeys(WithKeys(p, a, e, c), b, f, d) == WithKeys(p, a + b, e + f, c || d)
  {
    assert p.r.keystrokes + a + b == p.r.keystrokes + (a + b) && p.r.errors + e + f == p.r.errors + (e + f);
  }

  lemma KeysMark(x: Leaves, p: Parse, line: string)
    requires p.card.None? && line == "KEYSTROKES:"
    ensures ReadLine(x, p, line) == p.(afterKeystrokes := true, reload := None, section := InKeystrokes)
  {
    hide IsInline, StartsWith, StripInlineComment, ToUpper, OpenStage, CloseCard, ReadLine, ParsePartition, BankNumber, IsOn,
         Content, ReadCueMark, ReadPartitionLine;
    KeystrokesText(line);
    MarkDispatched(x, p, line, Keys);
  }

  /** A KEYSTROKES section. */
  lemma KeysSection(x: Leaves, p: Parse, lines: seq<string>)
    requires p.card.None? && AllContent(lines)
    ensures ReadLines(x, p, ["KEYSTROKES:"] + lines) ==
            WithKeys(p.(afterKeystrokes := true, reload := None, section := InKeystrokes), EventsIn(x, lines), KeyErrors(x, lines), UsesCards(x, lines))
  {
    hide ReadLine, ReadLines, AllContent, WithKeys;
    KeysMark(x, p, "KEYSTROKES:");
    OneAndRest(x, p, "KEYSTROKES:", lines);
    KeysRead(x, ReadLine(x, p, "KEYSTROKES:"), lines);
  }

  // ---------------------------------------------------------------- a reload stage

  /** A reload stage and the keystrokes after it. */
  datatype StageText = StageText(load: Load, keys: seq<string>)

  ghost predicate StageOk(t: StageText) {
    LoadOk(t.load) && AllContent(t.keys) && (t.load.groups.Some? || t.load.rows.Some? || t.load.registers.Some? || t.load.cue.Some?)
  }

  function LinesOfStage(t: StageText): seq<string>
  {
    LinesOfLoad(t.load) + (["KEYSTROKES:"] + t.keys)
  }

  /** Keystrokes are over, no stage is open. */
  predicate Between(p: Parse) { p.card.None? && p.afterKeystrokes && p.reload.None? }

  lemma SectionOpens(x: Leaves, p: Parse, line: string, mark: Mark)
    requires p.card.None? && IsMark(line, mark) && (mark == Partition || mark == Program || mark == Regs || mark == Cue)
    ensures ReadLine(x, p, line) == ReadLine(x, OpenStage(p), line)
  {
    hide IsInline, StartsWith, StripInlineComment, ToUpper, CloseCard, ReadLine, ParsePartition, Content;
    MarkDispatched(x, p, line, mark);
    MarkDispatched(x, OpenStage(p), line, mark);
    OpenTwice(p);
    hide OpenStage;
  }

  lemma OpenTwice(p: Parse)
    ensures OpenStage(OpenStage(p)) == OpenStage(p) && (p.card.None? ==> OpenStage(p).card.None?)
  {
  }

  /** The first section after the keystrokes opens a stage of its own, from step 0 on. */
  lemma LoadOpens(x: Leaves, p: Parse, t: StageText)
    requires Between(p) && StageOk(t)
    ensures ReadLines(x, p, LinesOfLoad(t.load)) == ReadLines(x, OpenStage(p), LinesOfLoad(t.load))
  {
    hide ReadLine, OpenStage, AllContent, IsMark, Rows, PartitionRow;
    var lines := LinesOfLoad(t.load);
    if t.load.groups.Some? {
      PartitionText(lines[0], t.load.groups.value);
      SectionOpens(x, p, lines[0], Partition);
    } else if t.load.rows.Some? {
      ProgramText(lines[0]);
      SectionOpens(x, p, lines[0], Program);
    } else if t.load.registers.Some? {
      RegistersText(lines[0]);
      SectionOpens(x, p, lines[0], Regs);
    } else {
      CueText(lines[0]);
      SectionOpens(x, p, lines[0], Cue);
    }
  }

  lemma Opened(p: Parse)
    requires Between(p)
    ensures var q := OpenStage(p);
            && Ready(q) && Here(q) == NOTHING && q.card.None? && FirstOf(q) == 0
            && forall s: Stage, e: seq<Error>, r: Parse :: Became(q, r, s, e) ==>
                 r == p.(reload := Some(|p.r.stages|), section := r.section, step := r.step,
                         r := p.r.(stages := p.r.stages + [s], keystrokes := p.r.keystrokes + [Reload(|p.r.stages|)],
                                   errors := p.r.errors + e))
  {
    var q := OpenStage(p);
    forall s: Stage, e: seq<Error>, r: Parse | Became(q, r, s, e)
      ensures r == p.(reload := Some(|p.r.stages|), section := r.section, step := r.step,
                      r := p.r.(stages := p.r.stages + [s], keystrokes := p.r.keystrokes + [Reload(|p.r.stages|)],
                                errors := p.r.errors + e))
    {
      assert (p.r.stages + [Stage(None, [], [], None)])[|p.r.stages| := s] == p.r.stages + [s];
    }
  }

  /** A stage is played in turn: it is loaded, then its keystrokes are played. */
  lemma StageReads(x: Leaves, p: Parse, t: StageText)
    requires Between(p) && StageOk(t)
    ensures var q, n := ReadLines(x, p, LinesOfStage(t)), |p.r.stages|;
            && Between(q) && q.cards == p.cards
            && q.r == p.r.(stages := p.r.stages + [Says(x, t.load, 0, x.allowHidden)],
                           keystrokes := p.r.keystrokes + [Reload(n)] + EventsIn(x, t.keys),
                           errors := p.r.errors + LoadErrors(x, t.load, x.allowHidden) + KeyErrors(x, t.keys),
                           usesCardReader := p.r.usesCardReader || UsesCards(x, t.keys))
  {
    hide Became, ReadLine, ReadLines, AllContent, LoadOk, Ready, Here, OpenStage, LinesOfLoad, Says, LoadErrors, EventsIn, KeyErrors, UsesCards;
    LoadOpens(x, p, t);
    Opened(p);
    LoadReads(x, OpenStage(p), t.load);
    var q := ReadLines(x, p, LinesOfLoad(t.load));
    assert q.card.None?;
    KeysSection(x, q, t.keys);
    ReadAppend(x, p, LinesOfLoad(t.load), ["KEYSTROKES:"] + t.keys);
  }

  ghost predicate StagesOk(ts: seq<StageText>) {
    forall i :: 0 <= i < |ts| ==> StageOk(ts[i])
  }

  function LinesOfStages(ts: seq<StageText>): seq<string> {
    if ts == [] then [] else LinesOfStage(ts[0]) + LinesOfStages(ts[1..])
  }

  function StageLoads(x: Leaves, ts: seq<StageText>): (r: seq<Stage>)
    ensures |r| == |ts|
  {
    seq(|ts|, i requires 0 <= i < |ts| => Says(x, ts[i].load, 0, x.allowHidden))
  }

  /** Stage `n` is loaded, its keystrokes are played, and so on. */
  function StageEvents(x: Leaves, ts: seq<StageText>, n: nat): seq<Event> {
    if ts == [] then [] else [Reload(n)] + EventsIn(x, ts[0].keys) + StageEvents(x, ts[1..], n + 1)
  }

  function StageErrors(x: Leaves, ts: seq<StageText>): seq<Error> {
    if ts == [] then []
    else LoadErrors(x, ts[0].load, x.allowHidden) + KeyErrors(x, ts[0].keys) + StageErrors(x, ts[1..])
  }

  predicate StagesUseCards(x: Leaves, ts: seq<StageText>) {
    ts != [] && (UsesCards(x, ts[0].keys) || StagesUseCards(x, ts[1..]))
  }

  function WithStages(p: Parse, loads: seq<Stage>, events: seq<Event>, errors: seq<Error>, cards: bool): Result {
    p.r.(stages := p.r.stages + loads, keystrokes := p.r.keystrokes + events, errors := p.r.errors + errors,
         usesCardReader := p.r.usesCardReader || cards)
  }

  lemma {:induction false} StagesRead(x: Leaves, p: Parse, ts: seq<StageText>)
    requires Between(p) && StagesOk(ts)
    ensures var q := ReadLines(x, p, LinesOfStages(ts));
            && Between(q) && q.cards == p.cards
            && q.r == WithStages(p, StageLoads(x, ts), StageEvents(x, ts, |p.r.stages|), StageErrors(x, ts), StagesUseCards(x, ts))
    decreases |ts|
  {
    hide ReadLine, StageOk, LinesOfStage, Says, LoadErrors, EventsIn, KeyErrors, UsesCards;
    if ts == [] {
      NothingMore(p);
    } else {
      StageReads(x, p, ts[0]);
      var q := ReadLines(x, p, LinesOfStage(ts[0]));
      StagesRead(x, q, ts[1..]);
      ReadAppend(x, p, LinesOfStage(ts[0]), LinesOfStages(ts[1..]));
      hide ReadLines;
      assert StageLoads(x, ts) == [Says(x, ts[0].load, 0, x.allowHidden)] + StageLoads(x, ts[1..]);
      StagesTwice(p, q, [Says(x, ts[0].load, 0, x.allowHidden)], [Reload(|p.r.stages|)] + EventsIn(x, ts[0].keys),
                  LoadErrors(x, ts[0].load, x.allowHidden) + KeyErrors(x, ts[0].keys), UsesCards(x, ts[0].keys),
                  StageLoads(x, ts[1..]), StageEvents(x, ts[1..], |q.r.stages|), StageErrors(x, ts[1..]), StagesUseCards(x, ts[1..]));
    }
  }

  lemma NothingMore(p: Parse)
    ensures WithStages(p, [], [], [], false) == p.r
  {
    assert p.r.stages + [] == p.r.stages && p.r.keystrokes + [] == p.r.keystrokes && p.r.errors + [] == p.r.errors;
  }

  lemma StagesTwice(p: Parse, q: Parse, a: seq<Stage>, k: seq<Event>, e: seq<Error>, c: bool,
                    b: seq<Stage>, l: seq<Event>, f: seq<Error>, d: bool)
    requires q.r == WithStages(p, a, k, e, c) || q.r == p.r.(stages := p.r.stages + a, keystrokes := p.r.keystrokes + k,
                                                             errors := p.r.errors + e, usesCardReader := p.r.usesCardReader || c)
    ensures WithStages(q, b, l, f, d) == WithStages(p, a + b, k + l, e + f, c || d)
  {
    assert p.r.stages + a + b == p.r.stages + (a + b) && p.r.keystrokes + k + l == p.r.keystrokes + (k + l);
    assert p.r.errors + e + f == p.r.errors + (e + f);
  }

  // ---------------------------------------------------------------- a preset

  /** Directives, the initial load, keystrokes, and stages after them. */
  datatype Preset = Preset(
    moduleId: Option<string>, printer: Option<bool>, model: Option<string>, load: Load, keys: seq<string>, stages: seq<StageText>)

  /** Text that stands as it is: no comment, no space at either end. */
  predicate IsText(s: string) {
    s != "" && Ascii(s) && Free(s, {'#'}) && !IsSpace(s[0]) && !IsSpace(s[|s| - 1])
  }

  ghost predicate PresetOk(x: Leaves, t: Preset) {
    && LoadOk(t.load) && AllContent(t.keys) && StagesOk(t.stages)
    && (t.moduleId.Some? ==> IsText(t.moduleId.value))
    && (t.model.Some? ==> IsText(t.model.value) && x.model(ToUpper(t.model.value)).Some?)
  }

  function DirectivesOf(t: Preset): seq<string> {
    (if t.moduleId.Some? then ["SOLID-STATE-MODULE: " + t.moduleId.value] else [])
    + (if t.printer.Some? then [if t.printer.value then "PRINTER: ON" else "PRINTER: OFF"] else [])
    + (if t.model.Some? then ["MODEL: " + t.model.value] else [])
  }

  function LinesOfPreset(t: Preset): seq<string> {
    DirectivesOf(t) + LinesOfLoad(t.load) + (["KEYSTROKES:"] + t.keys) + LinesOfStages(t.stages)
  }

  /** What a preset says, its directives' cards left open. */
  function PresetSays(x: Leaves, t: Preset, cards: bool): Result {
    var l := Says(x, t.load, 0, x.allowHidden);
    Result(if l.partition.Some? then l.partition.value else 479, l.partition.Some?, l.steps, l.registers,
           EventsIn(x, t.keys) + StageEvents(x, t.stages, 0), StageLoads(x, t.stages), l.cue, t.moduleId, t.printer,
           if t.model.Some? then x.model(ToUpper(t.model.value)) else None,
           cards || UsesCards(x, t.keys) || StagesUseCards(x, t.stages),
           LoadErrors(x, t.load, x.allowHidden) + KeyErrors(x, t.keys) + StageErrors(x, t.stages))
  }

  lemma InlineDispatched(x: Leaves, p: Parse, line: string)
    requires line != "" && StripInlineComment(line) == line && IsInline(ToUpper(line))
    ensures ReadLine(x, p, line) == InlineLine(x, p, line, ToUpper(line))
  {
    hide IsInline, StripInlineComment, ToUpper, CloseCard, InlineLine, CardLine, SectionLine, OpenCard;
  }

  /** A directive's name in capitals, and its value. */
  lemma DirectiveText(name: string, value: string)
    requires IsText(value) && name != "" && (forall i :: 0 <= i < |name| ==> Capital(name[i])) && name[0] != ' '
    ensures var line := name + " " + value;
            && StripInlineComment(line) == line && StartsWith(ToUpper(line), name) && line[|name|..] == " " + value
            && Trim(line[|name|..]) == value
  {
    hide StripInlineComment, ToUpper, Trim;
    var line := name + " " + value;
    DirectiveAscii(name, value, line);
    NothingToStrip(line);
    TrimLeading(value);
    assert line[|name|..] == " " + value;
    CapitalsStay(name, line);
  }

  lemma DirectiveAscii(name: string, value: string, line: string)
    requires IsText(value) && name != "" && (forall i :: 0 <= i < |name| ==> Capital(name[i])) && line == name + " " + value
    ensures Ascii(line) && Free(line, {'#'}) && line[0] == name[0] && line[|line| - 1] == value[|value| - 1]
  {
    forall i | 0 <= i < |line| ensures line[i] as int < 0x80 && line[i] != '#' {
      if i < |name| {
        assert Capital(line[i]);
      } else if i > |name| {
        assert line[i] == value[i - |name| - 1];
      }
    }
  }

  lemma CapitalsStay(name: string, line: string)
    requires (forall i :: 0 <= i < |name| ==> Capital(name[i])) && |line| >= |name| && line[..|name|] == name
    ensures StartsWith(ToUpper(line), name)
  {
    forall i | 0 <= i < |name| ensures ToUpper(line)[i] == name[i] {
      assert line[i] == line[..|name|][i] && Capital(name[i]);
    }
    hide ToUpper;
    assert ToUpper(line)[..|name|] == name;
  }

  lemma ModuleLine(x: Leaves, p: Parse, id: string, line: string)
    requires IsText(id) && line == "SOLID-STATE-MODULE: " + id
    ensures ReadLine(x, p, line) == p.(r := p.r.(moduleId := Some(id)))
  {
    var name := "SOLID-STATE-MODULE:";
    assert line == name + " " + id;
    hide ToUpper, StripInlineComment, StartsWith, Trim, ReadLine;
    DirectiveText(name, id);
    InlineDispatched(x, p, line);
  }

  lemma PrinterLine(x: Leaves, p: Parse, on: bool, line: string)
    requires line == if on then "PRINTER: ON" else "PRINTER: OFF"
    ensures ReadLine(x, p, line) == p.(r := p.r.(printer := Some(on)))
  {
    var name, value := "PRINTER:", if on then "ON" else "OFF";
    assert line == name + " " + value;
    hide ToUpper, StripInlineComment, StartsWith, Trim, ReadLine, IsOn;
    DirectiveText(name, value);
    InlineDispatched(x, p, line);
    NotModule(ToUpper(line));
    OnIsOn(on, line[8..]);
  }

  lemma NotModule(u: string)
    requires StartsWith(u, "PRINTER:")
    ensures !StartsWith(u, "SOLID-STATE-MODULE:")
  {
    assert u[0] == u[..8][0];
    Differs(u, "SOLID-STATE-MODULE:", 0);
  }

  lemma OnIsOn(on: bool, rest: string)
    requires Trim(rest) == if on then "ON" else "OFF"
    ensures IsOn(rest) == on
  {
    assert ToLower("ON") == "on" && ToLower("OFF") == "off";
    hide Trim;
  }

  lemma ModelLine(x: Leaves, p: Parse, name: string, line: string)
    requires IsText(name) && line == "MODEL: " + name && x.model(ToUpper(name)).Some?
    ensures ReadLine(x, p, line) == p.(r := p.r.(model := x.model(ToUpper(name))))
  {
    assert line == "MODEL:" + " " + name;
    hide ToUpper, StripInlineComment, StartsWith, Trim, ReadLine;
    DirectiveText("MODEL:", name);
    InlineDispatched(x, p, line);
    OnlyModel(ToUpper(line));
  }

  lemma OnlyModel(u: string)
    requires StartsWith(u, "MODEL:")
    ensures !StartsWith(u, "SOLID-STATE-MODULE:") && !StartsWith(u, "PRINTER:") && !StartsWith(u, "SKIP-RESET:")
  {
    assert u[0] == u[..6][0];
    Differs(u, "SOLID-STATE-MODULE:", 0);
    Differs(u, "PRINTER:", 0);
    Differs(u, "SKIP-RESET:", 0);
  }

  lemma DirectivesRead(x: Leaves, p: Parse, t: Preset)
    requires PresetOk(x, t) && p.r.moduleId == None && p.r.printer == None && p.r.model == None
    ensures ReadLines(x, p, DirectivesOf(t)) ==
            p.(r := p.r.(moduleId := t.moduleId, printer := t.printer, model := if t.model.Some? then x.model(ToUpper(t.model.value)) else None))
  {
    hide ReadLine, IsText, AllContent, LoadOk, StagesOk, ToUpper;
    var a := if t.moduleId.Some? then ["SOLID-STATE-MODULE: " + t.moduleId.value] else [];
    var b := if t.printer.Some? then [if t.printer.value then "PRINTER: ON" else "PRINTER: OFF"] else [];
    var c := if t.model.Some? then ["MODEL: " + t.model.value] else [];
    ReadAppend(x, p, a + b, c);
    ReadAppend(x, p, a, b);
    if t.moduleId.Some? {
      ModuleLine(x, p, t.moduleId.value, a[0]);
      OneLine(x, p, a[0]);
    }
    var q := ReadLines(x, p, a);
    assert q == p.(r := p.r.(moduleId := t.moduleId));
    if t.printer.Some? {
      PrinterLine(x, q, t.printer.value, b[0]);
      OneLine(x, q, b[0]);
    }
    var r := ReadLines(x, q, b);
    assert r == p.(r := p.r.(moduleId := t.moduleId, printer := t.printer));
    if t.model.Some? {
      ModelLine(x, r, t.model.value, c[0]);
      OneLine(x, r, c[0]);
    }
  }

  // ---------------------------------------------------------------- cards

  /** A card's block: its key, its bank, whether it is protected, and its load. */
  datatype CardText = CardText(key: string, bank: Bank, protect: bool, load: Load)

  type Bank = b: nat | 1 <= b <= 4 witness 1

  /** Its steps and registers are of its bank. */
  ghost predicate CardOk(x: Leaves, c: CardText) {
    && IsText(c.key) && LoadOk(c.load) && LoadErrors(x, c.load, false) == []
    && (c.load.rows.Some? ==> |Joined(c.load.rows.value)| <= 240)
    && (c.load.registers.Some? ==>
          forall i :: 0 <= i < |ValuesIn(x, c.load.registers.value, false)| ==>
            120 - 30 * c.bank <= ValuesIn(x, c.load.registers.value, false)[i].num <= 149 - 30 * c.bank)
  }

  function BankLine(bank: Bank): string { "BANK: " + [Digit(bank)] }

  function BlockOf(c: CardText): Block {
    Block("CARD: mem:" + c.key,
          [BankLine(c.bank)] + (if c.protect then ["PROTECTED: YES"] else []) + LinesOfLoad(c.load), "END-CARD")
  }

  /** What a card says: its program begins at its bank's first step. */
  function CardSays(x: Leaves, c: CardText): CardDef {
    var l := Says(x, c.load, 240 * (c.bank - 1), false);
    CardDef("mem:" + c.key, c.bank, c.protect, l.partition, l.steps, l.registers, l.cue)
  }

  lemma CardLineOpens(x: Leaves, key: string, line: string)
    requires IsText(key) && line == "CARD: mem:" + key
    ensures IsCardMark(line)
    ensures ReadLine(x, Beginning(), line) ==
            Beginning().(card := Some(Open(CardDef("mem:" + key, 0, false, None, [], [], None), Nowhere, 0)),
                         r := Beginning().r.(usesCardReader := true))
  {
    var value := "mem:" + key;
    assert line == "CARD:" + " " + value;
    MemText(key, value);
    hide ToUpper, StripInlineComment, StartsWith, Trim, IsText, CloseCard, CardLine, SectionLine, InlineLine;
    DirectiveText("CARD:", value);
    CardUpper(ToUpper(line));
  }

  lemma MemText(key: string, value: string)
    requires IsText(key) && value == "mem:" + key
    ensures IsText(value)
  {
    forall i | 0 <= i < |value| ensures value[i] as int < 0x80 && value[i] != '#' {
      if i >= 4 {
        assert value[i] == key[i - 4];
      }
    }
  }

  lemma CardUpper(u: string)
    requires StartsWith(u, "CARD:")
    ensures !IsInline(u) && !StartsWith(u, "END-CARD")
  {
    assert u[0] == u[..5][0];
    NotInline(u);
    Differs(u, "END-CARD", 0);
  }

  lemma BankLineText(bank: Bank, line: string)
    requires line == BankLine(bank)
    ensures IsMark(line, Mark.Bank) && line[5..] == " " + [Digit(bank)] && BankNumber(line[5..]) == Some(bank)
  {
    hide IsInline, StripInlineComment, ToUpper, StartsWith, Trim, Value;
    CapitalText(line);
    NotInline(line);
    NoBlockMark(line);
    OtherMarks(line);
    assert line[..5] == "BANK:";
    Starts(line, "BANK:");
    assert line[5..] == " " + [Digit(bank)];
    TrimLeading([Digit(bank)]);
    NoDigits();
    OneMoreDigit("", bank);
    assert "" + [Digit(bank)] == [Digit(bank)];
  }

  lemma ProtectedText(line: string)
    requires line == "PROTECTED: YES"
    ensures IsMark(line, Protected) && ToLower(Trim(line[10..])) == "yes"
  {
    hide IsInline, StripInlineComment, ToUpper, StartsWith, Trim;
    CapitalText(line);
    NotInlineP(line);
    NoBlockMark(line);
    OtherMarks(line);
    assert line[..10] == "PROTECTED:";
    Starts(line, "PROTECTED:");
    assert line[10..] == " " + "YES";
    TrimLeading("YES");
  }

  lemma BankRead(x: Leaves, p: Parse, bank: Bank, line: string)
    requires p.card.Some? && line == BankLine(bank)
    ensures ReadLine(x, p, line) == WithDef(p, p.card.value.def.(bank := bank))
  {
    hide IsInline, StripInlineComment, ToUpper, StartsWith, ReadLine, BankNumber, BankLine;
    BankLineText(bank, line);
    MarkDispatched(x, p, line, Mark.Bank);
  }

  lemma ProtectedRead(x: Leaves, p: Parse, line: string)
    requires p.card.Some? && line == "PROTECTED: YES"
    ensures ReadLine(x, p, line) == WithDef(p, p.card.value.def.(protect := true))
  {
    hide IsInline, StripInlineComment, ToUpper, StartsWith, ReadLine, IsOn, Trim;
    ProtectedText(line);
    MarkDispatched(x, p, line, Protected);
  }

  /** The block up to its load. */
  lemma BlockHead(x: Leaves, c: CardText)
    requires CardOk(x, c)
    ensures var b := BlockOf(c); var head := [b.mark, BankLine(c.bank)] + if c.protect then ["PROTECTED: YES"] else [];
            && [b.mark] + b.inner == head + LinesOfLoad(c.load)
            && ReadLines(x, Beginning(), head) ==
               Beginning().(card := Some(Open(CardDef("mem:" + c.key, c.bank, c.protect, None, [], [], None), Nowhere, 0)),
                            r := Beginning().r.(usesCardReader := true))
  {
    hide ReadLine, LinesOfLoad, IsText, BankLine, IsCardMark;
    var b := BlockOf(c);
    var more := if c.protect then ["PROTECTED: YES"] else [];
    assert [b.mark] + b.inner == [b.mark, BankLine(c.bank)] + more + LinesOfLoad(c.load);
    assert [b.mark, BankLine(c.bank)] + more == [b.mark] + ([BankLine(c.bank)] + more);
    CardLineOpens(x, c.key, b.mark);
    var p := ReadLine(x, Beginning(), b.mark);
    OneAndRest(x, Beginning(), b.mark, [BankLine(c.bank)] + more);
    BankRead(x, p, c.bank, BankLine(c.bank));
    OneAndRest(x, p, BankLine(c.bank), more);
    if c.protect {
      ProtectedRead(x, ReadLine(x, p, BankLine(c.bank)), "PROTECTED: YES");
      OneLine(x, ReadLine(x, p, BankLine(c.bank)), "PROTECTED: YES");
    }
  }

  /** A block read by itself defines its card, whole, and complains of nothing. */
  lemma CardReads(x: Leaves, c: CardText)
    requires CardOk(x, c)
    ensures CardOf(x, BlockOf(c)) == Some(CardSays(x, c)) && Complaints(x, BlockOf(c)) == []
  {
    hide ReadLine, ReadLines, LinesOfLoad, LoadOk, ValuesIn, IsText;
    BlockHead(x, c);
    var b := BlockOf(c);
    var head := [b.mark, BankLine(c.bank)] + if c.protect then ["PROTECTED: YES"] else [];
    var p := ReadLines(x, Beginning(), head);
    hide BlockOf;
    ReadAppend(x, Beginning(), head, LinesOfLoad(c.load));
    LoadReads(x, p, c.load);
    DefRead(x, c, p, Alone(x, b));
    AllKept(x, c);
  }

  lemma DefRead(x: Leaves, c: CardText, p: Parse, q: Parse)
    requires p == Beginning().(card := Some(Open(CardDef("mem:" + c.key, c.bank, c.protect, None, [], [], None), Nowhere, 0)),
                               r := Beginning().r.(usesCardReader := true))
    requires Became(p, q, Says(x, c.load, 240 * (c.bank - 1), false), [])
    ensures q.card.Some? && q.card.value.def == CardSays(x, c) && q.r.errors == []
  {
    hide Says;
  }

  lemma AllKept(x: Leaves, c: CardText)
    requires CardOk(x, c)
    ensures FinishCard(CardSays(x, c)) == Finished(Some(CardSays(x, c)), [])
  {
    var d := CardSays(x, c);
    StepsAllKept(d.name, d.steps, c.bank);
    RegistersAllKept(d.name, d.registers, c.bank);
    NameOfCard(c.key, d.name);
    hide StepsKept, RegistersKept, StepErrors, RegisterErrors, Says, IsMemoryCardName, ToLower;
    assert d.(steps := StepsKept(d.steps, d.bank), registers := RegistersKept(d.registers, d.bank)) == d;
    NoErrors();
  }

  lemma NameOfCard(key: string, name: string)
    requires IsText(key) && name == "mem:" + key
    ensures IsMemoryCardName(name) && MemoryCardKey(name) == key && key != ""
  {
    assert name[..4] == "mem:" && ToLower("mem:") == "mem:" && name[4..] == key;
  }

  lemma {:induction false} StepsAllKept(name: string, steps: seq<ProgramStep>, bank: nat)
    requires forall i :: 0 <= i < |steps| ==> StepInBank(steps[i].addr, bank)
    ensures StepsKept(steps, bank) == steps && StepErrors(name, steps, bank) == []
    decreases |steps|
  {
    if steps != [] {
      StepsAllKept(name, steps[..|steps| - 1], bank);
    }
  }

  lemma {:induction false} RegistersAllKept(name: string, regs: seq<RegisterValue>, bank: nat)
    requires forall i :: 0 <= i < |regs| ==> RegisterInBank(regs[i].num, bank)
    ensures RegistersKept(regs, bank) == regs && RegisterErrors(name, regs, bank) == []
    decreases |regs|
  {
    if regs != [] {
      RegistersAllKept(name, regs[..|regs| - 1], bank);
    }
  }

  // ---------------------------------------------------------------- a whole file

  lemma InnerMark(line: string, mark: Mark)
    requires IsMark(line, mark) && mark != Keys
    ensures IsInner(line)
  {
    hide IsInline, StripInlineComment, ToUpper, StartsWith;
  }

  lemma InnerContent(line: string)
    requires IsContent(line)
    ensures IsInner(line)
  {
    hide IsInline, StripInlineComment, ToUpper, StartsWith;
  }

  lemma InnerRow(codes: CodeRow)
    ensures IsInner(Row(codes))
  {
    hide IsInline, StripInlineComment, ToUpper, StartsWith, Row;
    RowPlain(codes);
    NothingToStrip(Row(codes));
    NoMark(Row(codes));
  }

  ghost predicate AllInner(lines: seq<string>) {
    forall i :: 0 <= i < |lines| ==> IsInner(lines[i])
  }

  lemma Both(a: seq<string>, b: seq<string>)
    requires AllInner(a) && AllInner(b)
    ensures AllInner(a + b)
  {
    hide IsInner;
  }

  lemma OneInner(line: string)
    requires IsInner(line)
    ensures AllInner([line])
  {
    hide IsInner;
  }

  lemma RowsInner(rows: seq<CodeRow>)
    ensures AllInner(Rows(rows))
  {
    hide IsInner, Row;
    forall i | 0 <= i < |rows| ensures IsInner(Rows(rows)[i]) {
      InnerRow(rows[i]);
    }
  }

  lemma PartsInner(l: Load)
    requires LoadOk(l)
    ensures AllInner(GroupLines(l)) && AllInner(ProgramLines(l)) && AllInner(RegisterLines(l)) && AllInner(CueLines(l))
  {
    hide IsInner, IsContent, PartitionRow, IsMark, Rows, AllInner, AllContent;
    NoLines();
    if l.groups.Some? {
      PartitionText(PartitionRow(l.groups.value), l.groups.value);
      InnerMark(PartitionRow(l.groups.value), Partition);
      OneInner(PartitionRow(l.groups.value));
    }
    if l.rows.Some? {
      ProgramText("PROGRAM:");
      InnerMark("PROGRAM:", Program);
      OneInner("PROGRAM:");
      RowsInner(l.rows.value);
      Both(["PROGRAM:"], Rows(l.rows.value));
    }
    if l.registers.Some? {
      RegistersText("REGISTERS:");
      InnerMark("REGISTERS:", Regs);
      OneInner("REGISTERS:");
      ContentInner(l.registers.value);
      Both(["REGISTERS:"], l.registers.value);
    }
    if l.cue.Some? {
      CueText("CUECARD:");
      InnerMark("CUECARD:", Cue);
      OneInner("CUECARD:");
      ContentInner(l.cue.value);
      Both(["CUECARD:"], l.cue.value);
    }
  }

  lemma NoLines()
    ensures AllInner([])
  {
  }

  lemma LoadInner(l: Load)
    requires LoadOk(l)
    ensures AllInner(LinesOfLoad(l))
  {
    hide AllInner, GroupLines, ProgramLines, RegisterLines, CueLines, LoadOk;
    PartsInner(l);
    PartsOfLoad(l);
    Both(GroupLines(l), ProgramLines(l));
    Both(GroupLines(l) + ProgramLines(l), RegisterLines(l));
    Both(GroupLines(l) + ProgramLines(l) + RegisterLines(l), CueLines(l));
  }

  lemma ContentInner(lines: seq<string>)
    requires AllContent(lines)
    ensures AllInner(lines)
  {
    hide IsInner, IsContent;
    forall i | 0 <= i < |lines| ensures IsInner(lines[i]) {
      InnerContent(lines[i]);
    }
  }

  lemma EndText(line: string)
    requires line == "END-CARD"
    ensures IsEndMark(line)
  {
    hide IsInline, StripInlineComment, ToUpper, StartsWith;
    CapitalText(line);
    NotInline(line);
    Starts(line, "END-CARD");
  }

  lemma BlockWellFormed(x: Leaves, c: CardText)
    requires CardOk(x, c)
    ensures WellFormed(BlockOf(c))
  {
    hide IsInner, IsContent, LinesOfLoad, IsText, BankLine, IsCardMark, IsEndMark, LoadOk, IsMark;
    var b := BlockOf(c);
    CardLineOpens(x, c.key, b.mark);
    EndText(b.end);
    BankLineText(c.bank, BankLine(c.bank));
    InnerMark(BankLine(c.bank), Mark.Bank);
    OneInner(BankLine(c.bank));
    NoLines();
    if c.protect {
      ProtectedText("PROTECTED: YES");
      InnerMark("PROTECTED: YES", Protected);
      OneInner("PROTECTED: YES");
    }
    LoadInner(c.load);
    var more := if c.protect then ["PROTECTED: YES"] else [];
    Both([BankLine(c.bank)], more);
    Both([BankLine(c.bank)] + more, LinesOfLoad(c.load));
    assert AllInner(b.inner);
  }

  function LinesOfCards(cards: seq<CardText>): seq<string> {
    if cards == [] then [] else LinesOfCards(cards[..|cards| - 1]) + LinesOf(BlockOf(cards[|cards| - 1]))
  }

  function CardMap(x: Leaves, cards: seq<CardText>): map<string, CardDef> {
    if cards == [] then map[]
    else CardMap(x, cards[..|cards| - 1])[cards[|cards| - 1].key := CardSays(x, cards[|cards| - 1])]
  }

  /** Well-formed blocks under different keys. */
  ghost predicate CardsOk(x: Leaves, cards: seq<CardText>) {
    && (forall i :: 0 <= i < |cards| ==> CardOk(x, cards[i]))
    && forall i, j :: 0 <= i < j < |cards| ==> cards[i].key != cards[j].key
  }

  lemma {:induction false} MapOfCards(x: Leaves, cards: seq<CardText>)
    requires CardsOk(x, cards)
    ensures forall i :: 0 <= i < |cards| ==> cards[i].key in CardMap(x, cards) && CardMap(x, cards)[cards[i].key] == CardSays(x, cards[i])
    ensures forall k :: k in CardMap(x, cards) ==> exists i :: 0 <= i < |cards| && cards[i].key == k
    decreases |cards|
  {
    hide CardOk, CardSays;
    if cards != [] {
      MapOfCards(x, cards[..|cards| - 1]);
    }
  }

  /** A preset's beginning after its cards' blocks. */
  function AfterCards(cards: map<string, CardDef>, any: bool): Parse {
    Beginning().(cards := cards, r := Beginning().r.(usesCardReader := any))
  }

  lemma {:induction false} CardsRead(x: Leaves, cards: seq<CardText>)
    requires CardsOk(x, cards)
    ensures ReadLines(x, Beginning(), LinesOfCards(cards)) == AfterCards(CardMap(x, cards), cards != [])
    decreases |cards|
  {
    hide CardOk, CardSays, BlockOf, ReadLine, ReadLines, CardsOk, WithBlock, LinesOf;
    if cards == [] {
      assert ReadLines(x, Beginning(), []) == Beginning() by { NoneRead(x, Beginning()); }
    } else {
      var most, last := cards[..|cards| - 1], cards[|cards| - 1];
      CardsSplit(x, cards);
      CardsRead(x, most);
      ReadAppend(x, Beginning(), LinesOfCards(most), LinesOf(BlockOf(last)));
      BlockWellFormed(x, last);
      BlockAdds(x, AfterCards(CardMap(x, most), most != []), BlockOf(last));
      CardAdds(x, most, last);
    }
  }

  lemma NoneRead(x: Leaves, p: Parse)
    ensures ReadLines(x, p, []) == p
  {
  }

  lemma CardsSplit(x: Leaves, cards: seq<CardText>)
    requires CardsOk(x, cards) && cards != []
    ensures var most, last := cards[..|cards| - 1], cards[|cards| - 1];
            CardsOk(x, most) && CardOk(x, last) && cards == most + [last]
  {
    hide CardOk;
  }

  lemma CardAdds(x: Leaves, most: seq<CardText>, last: CardText)
    requires CardsOk(x, most + [last])
    ensures WithBlock(x, AfterCards(CardMap(x, most), most != []), BlockOf(last)) ==
            AfterCards(CardMap(x, most)[last.key := CardSays(x, last)], true)
  {
    hide CardOk, Complaints, CardOf, CardMap, BlockOf, Says;
    assert (most + [last])[|most|] == last;
    CardReads(x, last);
    LastIsNew(x, most, last);
    NamedCard(x, last);
  }

  lemma NamedCard(x: Leaves, c: CardText)
    requires CardOk(x, c)
    ensures IsMemoryCardName(CardSays(x, c).name) && MemoryCardKey(CardSays(x, c).name) == c.key && |CardSays(x, c).name| >= 4
  {
    NameOfCard(c.key, "mem:" + c.key);
    hide IsMemoryCardName, Says;
  }

  lemma LastIsNew(x: Leaves, most: seq<CardText>, last: CardText)
    requires CardsOk(x, most + [last])
    ensures CardsOk(x, most) && last.key !in CardMap(x, most)
  {
    hide CardOk, CardMap;
    var all := most + [last];
    assert forall i :: 0 <= i < |most| ==> all[i] == most[i];
    assert all[|most|] == last;
    MapOfCards(x, most);
  }

  /** The keystrokes of a preset and its stages. */
  lemma {:induction false} PresetParsed(x: Leaves, cards: map<string, CardDef>, any: bool, t: Preset)
    requires PresetOk(x, t)
    ensures var q := ReadLines(x, AfterCards(cards, any), LinesOfPreset(t));
            q.card.None? && q.cards == cards && q.r == PresetSays(x, t, any)
  {
    hide ReadLine, ReadLines, LinesOfLoad, LinesOfStages, AllContent, LoadOk, StagesOk, IsText, EventsIn, KeyErrors, UsesCards, Says,
         LoadErrors, StageEvents, StageErrors, StagesUseCards, StageLoads, Became, DirectivesOf, Here, Ready;
    var p := AfterCards(cards, any);
    var a := ReadLines(x, p, DirectivesOf(t));
    DirectivesRead(x, p, t);
    LoadWaits(p, a);
    LoadReads(x, a, t.load);
    var b := ReadLines(x, a, LinesOfLoad(t.load));
    LoadBecame(a, b, Says(x, t.load, 0, x.allowHidden), LoadErrors(x, t.load, x.allowHidden));
    KeysSection(x, b, t.keys);
    var c := ReadLines(x, b, ["KEYSTROKES:"] + t.keys);
    StagesRead(x, c, t.stages);
    var d := ReadLines(x, c, LinesOfStages(t.stages));
    ReadAppend(x, p, DirectivesOf(t) + LinesOfLoad(t.load) + (["KEYSTROKES:"] + t.keys), LinesOfStages(t.stages));
    ReadAppend(x, p, DirectivesOf(t) + LinesOfLoad(t.load), ["KEYSTROKES:"] + t.keys);
    ReadAppend(x, p, DirectivesOf(t), LinesOfLoad(t.load));
    SaysAll(x, t, any, a, b, c, d);
  }

  lemma LoadWaits(p: Parse, a: Parse)
    requires p == AfterCards(p.cards, p.r.usesCardReader)
    requires a == p.(r := p.r.(moduleId := a.r.moduleId, printer := a.r.printer, model := a.r.model))
    ensures Ready(a) && Here(a) == NOTHING && FirstOf(a) == 0
  {
  }

  /** The initial load, laid open. */
  lemma LoadBecame(a: Parse, b: Parse, s: Stage, e: seq<Error>)
    requires Became(a, b, s, e) && a.card.None? && a.reload.None?
    ensures b.card.None? && b.reload.None? && b.cards == a.cards && b.afterKeystrokes == a.afterKeystrokes
    ensures b.r == a.r.(partition := if s.partition.Some? then s.partition.value else a.r.partition, explicitPartition := s.partition.Some?,
                        steps := s.steps, registers := s.registers, cue := s.cue, errors := a.r.errors + e)
  {
  }

  lemma SaysAll(x: Leaves, t: Preset, any: bool, a: Parse, b: Parse, c: Parse, d: Parse)
    requires a.r == AfterCards(map[], any).r.(moduleId := t.moduleId, printer := t.printer,
                                              model := if t.model.Some? then x.model(ToUpper(t.model.value)) else None)
    requires var s := Says(x, t.load, 0, x.allowHidden);
             b.r == a.r.(partition := if s.partition.Some? then s.partition.value else a.r.partition, explicitPartition := s.partition.Some?,
                         steps := s.steps, registers := s.registers, cue := s.cue, errors := a.r.errors + LoadErrors(x, t.load, x.allowHidden))
    requires c.r == WithKeys(b, EventsIn(x, t.keys), KeyErrors(x, t.keys), UsesCards(x, t.keys)).r
    requires d.r == WithStages(c, StageLoads(x, t.stages), StageEvents(x, t.stages, |c.r.stages|), StageErrors(x, t.stages), StagesUseCards(x, t.stages))
    ensures d.r == PresetSays(x, t, any)
  {
    hide Says, LoadErrors, EventsIn, KeyErrors, UsesCards, StageEvents, StageErrors, StagesUseCards, StageLoads, ToUpper;
    assert [] + EventsIn(x, t.keys) == EventsIn(x, t.keys);
    assert [] + StageLoads(x, t.stages) == StageLoads(x, t.stages);
    assert [] + LoadErrors(x, t.load, x.allowHidden) == LoadErrors(x, t.load, x.allowHidden);
  }

  /** Whether a keystroke is a directive for the card under a key. */
  predicate Names(e: Event, key: string) {
    e.Directive? && |e.cardName| >= 4 && ToLower(e.cardName[..4]) == "mem:" && e.cardName[4..] == key
  }

  /**
   A preset with cards reads as what it says: each section's lines are in the load, the stage or the
   card they were written for, in their order; program codes stand at consecutive steps, a card's
   from its bank's first step on; each stage is reloaded where it stands among the keystrokes; and
   a directive that names a card gets that card.
   */
  lemma PresetReads(x: Leaves, cards: seq<CardText>, t: Preset)
    requires CardsOk(x, cards) && PresetOk(x, t)
    ensures var r, said := ParseStateFile(x, LinesOfCards(cards) + LinesOfPreset(t)), PresetSays(x, t, cards != []);
            && r == said.(keystrokes := r.keystrokes) && |r.keystrokes| == |said.keystrokes|
            && (forall i, k :: 0 <= i < |said.keystrokes| && 0 <= k < |cards| && Names(said.keystrokes[i], cards[k].key) ==>
                  r.keystrokes[i] == said.keystrokes[i].(card := Some(CardSays(x, cards[k]))))
            && (forall i :: 0 <= i < |said.keystrokes| && (forall k :: 0 <= k < |cards| ==> !Names(said.keystrokes[i], cards[k].key)) ==>
                  r.keystrokes[i] == said.keystrokes[i])
  {
    hide ReadLine, ReadLines, LinesOfCards, LinesOfPreset, CardOk, PresetOk, PresetSays, CardSays, CardMap;
    CardsRead(x, cards);
    ReadAppend(x, Beginning(), LinesOfCards(cards), LinesOfPreset(t));
    PresetParsed(x, CardMap(x, cards), cards != [], t);
    MapOfCards(x, cards);
    var said := PresetSays(x, t, cards != []);
    forall i | 0 <= i < |said.keystrokes| && forall k :: 0 <= k < |cards| ==> !Names(said.keystrokes[i], cards[k].key)
      ensures Attached(said.keystrokes[i], CardMap(x, cards)) == said.keystrokes[i]
    {
    }
  }
}
