/**
 CARD blocks in presets. A block adds its card and its complaints, nothing else, wherever it
 stands outside another; so a preset means the same with the block taken out, but for that card,
 and the same wherever the block is put.
 */
module CardBlocks {
  import opened Words
  import opened TextUtil
  import opened StateFile

  // ---------------------------------------------------------------- a block

  function UpperOf(raw: string): string { ToUpper(StripInlineComment(raw)) }

  predicate IsCardMark(raw: string) {
    var u := UpperOf(raw);
    !IsInline(u) && !StartsWith(u, "END-CARD") && StartsWith(u, "CARD:")
  }

  predicate IsEndMark(raw: string) {
    !IsInline(UpperOf(raw)) && StartsWith(UpperOf(raw), "END-CARD")
  }

  /** A line of a well-formed block: no directive for the whole file, no mark of another block, no KEYSTROKES. */
  predicate IsInner(raw: string) {
    var u := UpperOf(raw);
    !IsInline(u) && !StartsWith(u, "END-CARD") && !StartsWith(u, "CARD:") && !StartsWith(u, "KEYSTROKES:")
  }

  datatype Block = Block(mark: string, inner: seq<string>, end: string)

  ghost predicate WellFormed(b: Block) {
    IsCardMark(b.mark) && IsEndMark(b.end) && forall i :: 0 <= i < |b.inner| ==> IsInner(b.inner[i])
  }

  function LinesOf(b: Block): seq<string> { [b.mark] + b.inner + [b.end] }

  /** The block read by itself, up to its end mark. */
  function Alone(x: Leaves, b: Block): Parse { ReadLines(x, Beginning(), [b.mark] + b.inner) }

  /** The card a block defines. */
  function CardOf(x: Leaves, b: Block): Option<CardDef> {
    if Alone(x, b).card.Some? then FinishCard(Alone(x, b).card.value.def).card else None
  }

  /** What is wrong with the block itself. */
  function Complaints(x: Leaves, b: Block): seq<Error> {
    Alone(x, b).r.errors + (if Alone(x, b).card.Some? then FinishCard(Alone(x, b).card.value.def).errors else [])
  }

  /** A parse with a block's card and complaints added. */
  function WithBlock(x: Leaves, p: Parse, b: Block): Parse {
    p.(cards := Defined(p.cards, CardOf(x, b)),
       r := p.r.(usesCardReader := true, errors := p.r.errors + Complaints(x, b) + TwiceErrors(p.cards, CardOf(x, b))))
  }

  // ---------------------------------------------------------------- inside a block

  /** `p` is reading the block that `alone` reads by itself, in the place where `outer` stood. */
  ghost predicate Inside(p: Parse, outer: Parse, alone: Parse) {
    && alone.card.Some? && p.card == Some(Open(alone.card.value.def, outer.section, outer.step))
    && p.section == alone.section && (p.section == InProgram ==> p.step == alone.step)
    && (p.section == Nowhere || p.section == InProgram || p.section == InRegisters || p.section == InCue)
    && p.r == outer.r.(usesCardReader := true, errors := outer.r.errors + alone.r.errors)
    && p.afterKeystrokes == outer.afterKeystrokes && p.reload == outer.reload && p.cards == outer.cards
  }

  /** The mark's line opens the block. */
  lemma MarkRead(x: Leaves, p: Parse, raw: string)
    requires p.card.None? && IsCardMark(raw)
    ensures |StripInlineComment(raw)| >= 5 && ReadLine(x, p, raw) == OpenCard(p, StripInlineComment(raw))
  {
    hide IsInline, StartsWith, OpenCard, StripInlineComment, ToUpper;
    assert |UpperOf(raw)| >= 5 by { CardMarkLength(raw); }
  }

  lemma CardMarkLength(raw: string)
    requires IsCardMark(raw)
    ensures |UpperOf(raw)| >= 5
  {
    hide IsInline, StripInlineComment, ToUpper;
  }

  lemma BlockOpens(x: Leaves, outer: Parse, raw: string)
    requires outer.card.None? && IsCardMark(raw)
    ensures Inside(ReadLine(x, outer, raw), outer, ReadLine(x, Beginning(), raw))
  {
    hide ReadLine, IsCardMark, StripInlineComment, Trim;
    MarkRead(x, outer, raw);
    MarkRead(x, Beginning(), raw);
    assert outer.r.errors + [] == outer.r.errors;
  }

  /** An inner line is read by the card's own rules. */
  lemma InnerRead(x: Leaves, p: Parse, raw: string)
    requires p.card.Some? && IsInner(raw)
    ensures var line := StripInlineComment(raw);
            ReadLine(x, p, raw) == if line == "" then p else CardLine(x, p, line, ToUpper(line))
  {
    hide IsInline, StartsWith, CardLine, StripInlineComment, ToUpper;
  }

  lemma ErrorsAdd(a: seq<Error>, b: seq<Error>, c: seq<Error>)
    ensures (a + b) + c == a + (b + c)
  {
  }

  lemma ContentInside(x: Leaves, p: Parse, outer: Parse, alone: Parse, line: string)
    requires Inside(p, outer, alone) && p.section != Nowhere
    ensures Inside(Content(x, p, line), outer, Content(x, alone, line))
  {
    hide ParseProgLine, MoreCue, Numbered;
    if p.section == InRegisters {
      var l := x.register(line, false);
      ErrorsAdd(outer.r.errors, alone.r.errors, l.errors);
    }
  }

  lemma ErrorInside(p: Parse, outer: Parse, alone: Parse, errors: seq<Error>)
    requires Inside(p, outer, alone)
    ensures Inside(WithErrors(p, errors), outer, WithErrors(alone, errors))
  {
    ErrorsAdd(outer.r.errors, alone.r.errors, errors);
  }

  lemma DefInside(p: Parse, outer: Parse, alone: Parse, c: CardDef)
    requires Inside(p, outer, alone)
    ensures Inside(WithDef(p, c), outer, WithDef(alone, c))
  {
  }

  lemma SectionInside(p: Parse, outer: Parse, alone: Parse, section: Section, step: nat)
    requires Inside(p, outer, alone)
    ensures section == InRegisters || section == InCue ==>
              Inside(p.(section := section), outer, alone.(section := section))
    ensures Inside(p.(section := InProgram, step := step), outer, alone.(section := InProgram, step := step))
  {
  }

  lemma CardLineInside(x: Leaves, p: Parse, outer: Parse, alone: Parse, line: string, upper: string)
    requires Inside(p, outer, alone) && |upper| == |line| && !StartsWith(upper, "KEYSTROKES:")
    ensures Inside(CardLine(x, p, line, upper), outer, CardLine(x, alone, line, upper))
  {
    hide Content, WithErrors, WithDef, SectionLine, CloseCard, Inside, BankNumber, ParsePartition, IsOn, Trim, ToLower, FirstStep;
    SameDef(p, outer, alone);
    var c := alone.card.value.def;
    if StartsWith(upper, "BANK:") {
      BankInside(p, outer, alone, BankNumber(line[5..]));
    } else if StartsWith(upper, "PROTECTED:") {
      DefInside(p, outer, alone, c.(protect := IsOn(line[10..]) || ToLower(Trim(line[10..])) == "yes"));
    } else if StartsWith(upper, "PARTITION:") {
      PartitionInside(p, outer, alone, ParsePartition(Trim(line[10..])));
    } else if StartsWith(upper, "PROGRAM:") {
      SectionInside(p, outer, alone, InProgram, FirstStep(c.bank));
    } else if StartsWith(upper, "REGISTERS:") {
      SectionInside(p, outer, alone, InRegisters, 0);
    } else if StartsWith(upper, "CUECARD:") {
      DefInside(p, outer, alone, c.(cue := Some([])));
      SectionInside(WithDef(p, c.(cue := Some([]))), outer, WithDef(alone, c.(cue := Some([]))), InCue, 0);
    } else if p.section == InProgram || p.section == InRegisters || p.section == InCue {
      ContentInside(x, p, outer, alone, line);
    } else {
      ErrorInside(p, outer, alone, [UnexpectedLine(c.name, line)]);
    }
  }

  lemma BankInside(p: Parse, outer: Parse, alone: Parse, n: Option<nat>)
    requires Inside(p, outer, alone)
    ensures alone.card.Some? && p.card.Some? && var c := alone.card.value.def;
            && (n.Some? ==> Inside(WithDef(p, c.(bank := n.value)), outer, WithDef(alone, c.(bank := n.value))))
            && Inside(WithErrors(p, [BadBank(c.name)]), outer, WithErrors(alone, [BadBank(c.name)]))
  {
    hide Inside, WithErrors, WithDef;
    SameDef(p, outer, alone);
    var c := alone.card.value.def;
    DefInside(p, outer, alone, c.(bank := if n.Some? then n.value else 0));
    ErrorInside(p, outer, alone, [BadBank(c.name)]);
  }

  lemma PartitionInside(p: Parse, outer: Parse, alone: Parse, last: Option<int>)
    requires Inside(p, outer, alone)
    ensures alone.card.Some? && p.card.Some? && var c := alone.card.value.def;
            var bad := if last.None? then [BadPartition(c.name)] else [];
            Inside(WithErrors(WithDef(p, c.(partition := last)), bad), outer, WithErrors(WithDef(alone, c.(partition := last)), bad))
  {
    hide Inside, WithErrors, WithDef;
    SameDef(p, outer, alone);
    var c := alone.card.value.def;
    DefInside(p, outer, alone, c.(partition := last));
    ErrorInside(WithDef(p, c.(partition := last)), outer, WithDef(alone, c.(partition := last)),
                if last.None? then [BadPartition(c.name)] else []);
  }

  lemma SameDef(p: Parse, outer: Parse, alone: Parse)
    requires Inside(p, outer, alone)
    ensures p.card.Some? && alone.card.Some? && p.card.value.def == alone.card.value.def && p.section == alone.section
  {
  }

  lemma {:induction false} InnerInside(x: Leaves, p: Parse, outer: Parse, alone: Parse, inner: seq<string>)
    requires Inside(p, outer, alone) && forall i :: 0 <= i < |inner| ==> IsInner(inner[i])
    ensures Inside(ReadLines(x, p, inner), outer, ReadLines(x, alone, inner))
    decreases |inner|
  {
    hide ReadLine, CardLine, IsInner, Inside;
    if inner != [] {
      var raw := inner[0];
      SameDef(p, outer, alone);
      InnerRead(x, p, raw);
      InnerRead(x, alone, raw);
      var line := StripInlineComment(raw);
      if line != "" {
        NoKeystrokes(raw);
        CardLineInside(x, p, outer, alone, line, ToUpper(line));
      }
      InnerInside(x, ReadLine(x, p, raw), outer, ReadLine(x, alone, raw), inner[1..]);
    }
  }

  lemma NoKeystrokes(raw: string)
    requires IsInner(raw)
    ensures !StartsWith(ToUpper(StripInlineComment(raw)), "KEYSTROKES:")
  {
    hide IsInline, StartsWith;
  }

  lemma EndRead(x: Leaves, p: Parse, raw: string)
    requires p.card.Some? && IsEndMark(raw)
    ensures ReadLine(x, p, raw) == CloseCard(p)
  {
    hide IsInline, CloseCard, StripInlineComment, ToUpper;
    assert |UpperOf(raw)| >= 8;
    hide StartsWith;
  }

  /** Wherever it stands outside another, a block adds its card and its complaints and nothing else. */
  lemma BlockAdds(x: Leaves, p: Parse, b: Block)
    requires p.card.None? && WellFormed(b)
    ensures ReadLines(x, p, LinesOf(b)) == WithBlock(x, p, b)
  {
    hide ReadLine, Inside, IsCardMark, IsEndMark, IsInner;
    var open := ReadLine(x, p, b.mark);
    BlockOpens(x, p, b.mark);
    InnerInside(x, open, p, ReadLine(x, Beginning(), b.mark), b.inner);
    ReadAppend(x, p, [b.mark] + b.inner, [b.end]);
    ReadAppend(x, p, [b.mark], b.inner);
    ReadAppend(x, Beginning(), [b.mark], b.inner);
    OneLine(x, p, b.mark);
    OneLine(x, Beginning(), b.mark);
    var q := ReadLines(x, open, b.inner);
    SameDef(q, p, Alone(x, b));
    OneLine(x, q, b.end);
    EndRead(x, q, b.end);
    hide ReadLines, Alone;
    Closes(x, q, p, b);
  }

  lemma Closes(x: Leaves, q: Parse, p: Parse, b: Block)
    requires p.card.None? && Inside(q, p, Alone(x, b))
    ensures CloseCard(q) == WithBlock(x, p, b)
  {
    hide Alone, FinishCard, Defined, TwiceErrors;
    var alone := Alone(x, b);
    ErrorsAdd(p.r.errors, alone.r.errors, FinishCard(alone.card.value.def).errors);
  }

  lemma OneLine(x: Leaves, p: Parse, raw: string)
    ensures ReadLines(x, p, [raw]) == ReadLine(x, p, raw)
  {
    hide ReadLine;
    assert [raw][1..] == [];
    assert ReadLines(x, ReadLine(x, p, raw), []) == ReadLine(x, p, raw);
  }

  // ---------------------------------------------------------------- what lines do not look at

  /** A parse without its complaints and, with `all`, without its cards and the reader flag. */
  function Masked(p: Parse, all: bool): Parse {
    p.(cards := if all then map[] else p.cards,
       r := p.r.(errors := [], usesCardReader := !all && p.r.usesCardReader))
  }

  /** The two parses differ in nothing but what the mask hides. */
  predicate Alike(p: Parse, q: Parse, all: bool) { Masked(p, all) == Masked(q, all) }

  lemma AlikeParts(p: Parse, q: Parse, all: bool)
    requires Alike(p, q, all)
    ensures p.section == q.section && p.step == q.step && p.afterKeystrokes == q.afterKeystrokes && p.reload == q.reload
    ensures p.card == q.card && p.r == q.r.(errors := p.r.errors, usesCardReader := p.r.usesCardReader)
    ensures !all ==> p.cards == q.cards && p.r.usesCardReader == q.r.usesCardReader
  {
  }

  lemma PartsAlike(p: Parse, q: Parse, all: bool)
    requires p.section == q.section && p.step == q.step && p.afterKeystrokes == q.afterKeystrokes && p.reload == q.reload
    requires p.card == q.card && p.r == q.r.(errors := p.r.errors, usesCardReader := p.r.usesCardReader)
    requires !all ==> p.cards == q.cards && p.r.usesCardReader == q.r.usesCardReader
    ensures Alike(p, q, all)
  {
  }

  lemma CloseAlike(p: Parse, q: Parse, all: bool)
    requires Alike(p, q, all) && p.card.Some? && q.card.Some?
    ensures Alike(CloseCard(p), CloseCard(q), all)
  {
    hide FinishCard, Defined, TwiceErrors;
  }

  lemma ErrorsAlike(p: Parse, q: Parse, all: bool, e: seq<Error>, f: seq<Error>)
    requires Alike(p, q, all)
    ensures Alike(WithErrors(p, e), WithErrors(q, f), all)
  {
  }

  lemma StageAlike(p: Parse, q: Parse, all: bool, section: Section)
    requires Alike(p, q, all)
    ensures Alike(OpenStage(p).(section := section), OpenStage(q).(section := section), all)
    ensures Alike(p.(section := section), q.(section := section), all)
  {
  }

  lemma MarksAlike(p: Parse, q: Parse, all: bool, rest: string)
    requires Alike(p, q, all)
    ensures Alike(ReadPartitionLine(p, rest), ReadPartitionLine(q, rest), all)
    ensures Alike(ReadCueMark(p), ReadCueMark(q), all)
  {
    hide ParsePartition, OpenStage;
    StageAlike(p, q, all, InPartition);
    StageAlike(p, q, all, InCue);
  }

  /** The two parses are in the same stage or in none. */
  lemma SameStage(p: Parse, q: Parse, all: bool)
    requires Alike(p, q, all)
    ensures InStage(p) == InStage(q) && (InStage(p) ==> StageOf(p) == StageOf(q))
  {
    hide Alike;
    AlikeParts(p, q, all);
  }

  lemma PutStageAlike(p: Parse, q: Parse, all: bool, stage: Stage)
    requires Alike(p, q, all) && InStage(p) && InStage(q)
    ensures Alike(WithStage(p, stage), WithStage(q, stage), all)
  {
    hide Alike;
    AlikeParts(p, q, all);
    PartsAlike(WithStage(p, stage), WithStage(q, stage), all);
  }

  lemma ResultAlike(p: Parse, q: Parse, all: bool, r: Result)
    requires Alike(p, q, all)
    requires r.usesCardReader == p.r.usesCardReader && r.errors == p.r.errors
    ensures Alike(p.(r := r), q.(r := r.(errors := q.r.errors, usesCardReader := q.r.usesCardReader)), all)
  {
    hide Alike;
    AlikeParts(p, q, all);
    PartsAlike(p.(r := r), q.(r := r.(errors := q.r.errors, usesCardReader := q.r.usesCardReader)), all);
  }

  lemma StepsAlike(p: Parse, q: Parse, all: bool, steps: seq<ProgramStep>)
    requires Alike(p, q, all)
    ensures Alike(AddSteps(p, steps), AddSteps(q, steps), all)
  {
    hide Alike, Masked, InStage, StageOf, WithStage;
    AlikeParts(p, q, all);
    SameStage(p, q, all);
    if p.card.Some? {
      DefAlike(p, q, all, p.card.value.def.(steps := p.card.value.def.steps + steps));
    } else if InStage(p) {
      PutStageAlike(p, q, all, StageOf(p).(steps := StageOf(p).steps + steps));
    } else {
      ResultAlike(p, q, all, p.r.(steps := p.r.steps + steps));
    }
  }

  lemma RegistersAlike(p: Parse, q: Parse, all: bool, regs: seq<RegisterValue>)
    requires Alike(p, q, all)
    ensures Alike(AddRegisters(p, regs), AddRegisters(q, regs), all)
  {
    hide Alike, Masked, InStage, StageOf, WithStage;
    AlikeParts(p, q, all);
    SameStage(p, q, all);
    if p.card.Some? {
      DefAlike(p, q, all, p.card.value.def.(registers := p.card.value.def.registers + regs));
    } else if InStage(p) {
      PutStageAlike(p, q, all, StageOf(p).(registers := StageOf(p).registers + regs));
    } else {
      ResultAlike(p, q, all, p.r.(registers := p.r.registers + regs));
    }
  }

  lemma CueAlike(p: Parse, q: Parse, all: bool, line: string)
    requires Alike(p, q, all)
    ensures Alike(AddCue(p, line), AddCue(q, line), all)
  {
    hide Alike, Masked, InStage, StageOf, WithStage, MoreCue;
    AlikeParts(p, q, all);
    SameStage(p, q, all);
    if p.card.Some? {
      DefAlike(p, q, all, p.card.value.def.(cue := MoreCue(p.card.value.def.cue, line)));
    } else if InStage(p) {
      PutStageAlike(p, q, all, StageOf(p).(cue := MoreCue(StageOf(p).cue, line)));
    } else {
      ResultAlike(p, q, all, p.r.(cue := MoreCue(p.r.cue, line)));
    }
  }

  lemma KeystrokesAlike(x: Leaves, p: Parse, q: Parse, all: bool, line: string)
    requires Alike(p, q, all)
    ensures Alike(ReadKeystrokes(x, p, line), ReadKeystrokes(x, q, line), all)
    ensures Alike(p.(afterKeystrokes := true, reload := None, section := InKeystrokes),
                  q.(afterKeystrokes := true, reload := None, section := InKeystrokes), all)
  {
    AlikeParts(p, q, all);
    hide Alike;
    PartsAlike(ReadKeystrokes(x, p, line), ReadKeystrokes(x, q, line), all);
    PartsAlike(p.(afterKeystrokes := true, reload := None, section := InKeystrokes),
               q.(afterKeystrokes := true, reload := None, section := InKeystrokes), all);
  }

  lemma ProgramAlike(x: Leaves, p: Parse, q: Parse, all: bool, line: string)
    requires Alike(p, q, all)
    ensures Alike(ReadProgram(x, p, line), ReadProgram(x, q, line), all)
  {
    hide AddSteps, Numbered, ParseProgLine;
    if line != "..." {
      var l := ParseProgLine(line, x.maxStep);
      var first := if l.start.Some? then l.start.value else p.step;
      AlikeParts(p, q, all);
      PartsAlike(p.(step := first + |l.codes|), q.(step := first + |l.codes|), all);
      StepsAlike(p.(step := first + |l.codes|), q.(step := first + |l.codes|), all, Numbered(l.codes, first));
    }
  }

  lemma ContentAlike(x: Leaves, p: Parse, q: Parse, all: bool, line: string)
    requires Alike(p, q, all)
    ensures Alike(Content(x, p, line), Content(x, q, line), all)
  {
    hide ReadProgram, AddRegisters, AddCue, AddSteps, WithErrors, ReadKeystrokes, Alike;
    AlikeParts(p, q, all);
    ProgramAlike(x, p, q, all, line);
    var l := x.register(line, x.allowHidden && p.card.None?);
    RegistersAlike(p, q, all, l.values);
    CueAlike(p, q, all, line);
    KeystrokesAlike(x, p, q, all, line);
    ErrorsAlike(AddRegisters(p, l.values), AddRegisters(q, l.values), all, l.errors, l.errors);
  }

  lemma SectionLineAlike(x: Leaves, p: Parse, q: Parse, all: bool, line: string, upper: string)
    requires Alike(p, q, all) && |upper| == |line|
    ensures Alike(SectionLine(x, p, line, upper), SectionLine(x, q, line, upper), all)
  {
    hide StartsWith, Content, OpenStage, ReadPartitionLine, ReadCueMark, Alike;
    Prefixed(upper, "PARTITION:");
    MarksAlike(p, q, all, if |line| >= 10 then line[10..] else "");
    StageAlike(p, q, all, InProgram);
    StageAlike(p, q, all, InRegisters);
    KeystrokesAlike(x, p, q, all, line);
    ContentAlike(x, p, q, all, line);
  }

  lemma Prefixed(s: string, prefix: string)
    ensures StartsWith(s, prefix) ==> |s| >= |prefix|
  {
  }

  lemma DefAlike(p: Parse, q: Parse, all: bool, c: CardDef)
    requires Alike(p, q, all) && p.card.Some? && q.card.Some?
    ensures Alike(WithDef(p, c), WithDef(q, c), all) && WithDef(p, c).card.Some? && WithDef(q, c).card.Some?
  {
  }

  /** The lines of a block that set something of its card. */
  lemma FieldsAlike(p: Parse, q: Parse, all: bool, bank: Option<nat>, protect: bool, last: Option<int>)
    requires Alike(p, q, all) && p.card.Some? && q.card.Some?
    ensures var c := p.card.value.def;
            && q.card.value.def == c
            && (bank.Some? ==> Alike(WithDef(p, c.(bank := bank.value)), WithDef(q, c.(bank := bank.value)), all))
            && Alike(WithErrors(p, [BadBank(c.name)]), WithErrors(q, [BadBank(c.name)]), all)
            && Alike(WithDef(p, c.(protect := protect)), WithDef(q, c.(protect := protect)), all)
            && var e := if last.None? then [BadPartition(c.name)] else [];
               Alike(WithErrors(WithDef(p, c.(partition := last)), e), WithErrors(WithDef(q, c.(partition := last)), e), all)
  {
    hide WithErrors, WithDef;
    AlikeParts(p, q, all);
    hide Alike;
    var c := p.card.value.def;
    if bank.Some? {
      DefAlike(p, q, all, c.(bank := bank.value));
    }
    ErrorsAlike(p, q, all, [BadBank(c.name)], [BadBank(c.name)]);
    DefAlike(p, q, all, c.(protect := protect));
    DefAlike(p, q, all, c.(partition := last));
    var e := if last.None? then [BadPartition(c.name)] else [];
    ErrorsAlike(WithDef(p, c.(partition := last)), WithDef(q, c.(partition := last)), all, e, e);
  }

  /** The lines of a block that open a section. */
  lemma SectionsAlike(p: Parse, q: Parse, all: bool, line: string)
    requires Alike(p, q, all) && p.card.Some? && q.card.Some?
    ensures var c := p.card.value.def;
            && Alike(p.(section := InProgram, step := FirstStep(c.bank)), q.(section := InProgram, step := FirstStep(c.bank)), all)
            && Alike(p.(section := InRegisters), q.(section := InRegisters), all)
            && Alike(WithDef(p, c.(cue := Some([]))).(section := InCue), WithDef(q, c.(cue := Some([]))).(section := InCue), all)
            && Alike(WithErrors(p, [UnexpectedLine(c.name, line)]), WithErrors(q, [UnexpectedLine(c.name, line)]), all)
  {
    hide WithErrors, WithDef, FirstStep;
    AlikeParts(p, q, all);
    hide Alike;
    var c := p.card.value.def;
    PartsAlike(p.(section := InProgram, step := FirstStep(c.bank)), q.(section := InProgram, step := FirstStep(c.bank)), all);
    PartsAlike(p.(section := InRegisters), q.(section := InRegisters), all);
    DefAlike(p, q, all, c.(cue := Some([])));
    var pc, qc := WithDef(p, c.(cue := Some([]))), WithDef(q, c.(cue := Some([])));
    AlikeParts(pc, qc, all);
    PartsAlike(pc.(section := InCue), qc.(section := InCue), all);
    ErrorsAlike(p, q, all, [UnexpectedLine(c.name, line)], [UnexpectedLine(c.name, line)]);
  }

  lemma CardLineAlike(x: Leaves, p: Parse, q: Parse, all: bool, line: string, upper: string)
    requires Alike(p, q, all) && |upper| == |line| && p.card.Some? && q.card.Some?
    ensures Alike(CardLine(x, p, line, upper), CardLine(x, q, line, upper), all)
  {
    hide StartsWith, Content, WithErrors, WithDef, SectionLine, CloseCard, BankNumber, ParsePartition, IsOn, Trim, ToLower, FirstStep;
    AlikeParts(p, q, all);
    hide Alike;
    Prefixed(upper, "BANK:");
    Prefixed(upper, "PROTECTED:");
    Prefixed(upper, "PARTITION:");
    var bank := if |line| >= 5 then BankNumber(line[5..]) else None;
    var protect := if |line| >= 10 then IsOn(line[10..]) || ToLower(Trim(line[10..])) == "yes" else false;
    var last := if |line| >= 10 then ParsePartition(Trim(line[10..])) else None;
    FieldsAlike(p, q, all, bank, protect, last);
    SectionsAlike(p, q, all, line);
    CutOffAlike(x, p, q, all, line, upper);
    ContentAlike(x, p, q, all, line);
  }

  /** A KEYSTROKES line in a block closes it and goes on outside. */
  lemma CutOffAlike(x: Leaves, p: Parse, q: Parse, all: bool, line: string, upper: string)
    requires Alike(p, q, all) && |upper| == |line| && p.card.Some? && q.card.Some? && p.card.value.def == q.card.value.def
    ensures var e := [NoEndCard(p.card.value.def.name)];
            && WithErrors(p, e).card.Some? && WithErrors(q, e).card.Some?
            && Alike(CloseCard(WithErrors(p, e)), CloseCard(WithErrors(q, e)), all)
            && Alike(SectionLine(x, CloseCard(WithErrors(p, e)), line, upper),
                     SectionLine(x, CloseCard(WithErrors(q, e)), line, upper), all)
  {
    hide SectionLine, CloseCard, Alike;
    var e := [NoEndCard(p.card.value.def.name)];
    ErrorsAlike(p, q, all, e, e);
    CloseAlike(WithErrors(p, e), WithErrors(q, e), all);
    SectionLineAlike(x, CloseCard(WithErrors(p, e)), CloseCard(WithErrors(q, e)), all, line, upper);
  }

  lemma ModuleAlike(x: Leaves, p: Parse, q: Parse, all: bool, value: string, on: bool)
    requires Alike(p, q, all)
    ensures Alike(ReadModule(p, value), ReadModule(q, value), all)
    ensures Alike(p.(r := p.r.(printer := Some(on))), q.(r := q.r.(printer := Some(on))), all)
  {
    AlikeParts(p, q, all);
    hide Alike;
    PartsAlike(ReadModule(p, value), ReadModule(q, value), all);
    PartsAlike(p.(r := p.r.(printer := Some(on))), q.(r := q.r.(printer := Some(on))), all);
  }

  lemma ModelAlike(x: Leaves, p: Parse, q: Parse, all: bool, value: string)
    requires Alike(p, q, all)
    ensures Alike(ReadModel(x, p, value), ReadModel(x, q, value), all)
  {
    hide WithErrors;
    AlikeParts(p, q, all);
    ErrorsAlike(p, q, all, [UnknownModel(value)], [UnknownModel(value)]);
    hide Alike;
    var m := x.model(value);
    if m.Some? {
      PartsAlike(ReadModel(x, p, value), ReadModel(x, q, value), all);
    }
  }

  lemma InlineAlike(x: Leaves, p: Parse, q: Parse, all: bool, line: string, upper: string)
    requires Alike(p, q, all) && |upper| == |line| && IsInline(upper)
    ensures Alike(InlineLine(x, p, line, upper), InlineLine(x, q, line, upper), all)
  {
    hide Trim, IsOn, ToUpper, Alike, ReadModule, ReadModel, WithErrors;
    var id := if |line| >= 19 then Trim(line[19..]) else "";
    var on := if |line| >= 8 then IsOn(line[8..]) else false;
    var model := if |line| >= 6 then ToUpper(Trim(line[6..])) else "";
    ModuleAlike(x, p, q, all, id, on);
    ErrorsAlike(p, q, all, [SkipReset], [SkipReset]);
    ModelAlike(x, p, q, all, model);
  }

  lemma OpenAlike(p: Parse, q: Parse, all: bool, line: string)
    requires Alike(p, q, all) && p.card.None? && q.card.None? && |line| >= 5
    ensures Alike(OpenCard(p, line), OpenCard(q, line), all)
  {
    hide Trim;
  }

  /** A line does to two parses that are alike the same things. */
  lemma LineAlike(x: Leaves, p: Parse, q: Parse, all: bool, raw: string)
    requires Alike(p, q, all)
    ensures Alike(ReadLine(x, p, raw), ReadLine(x, q, raw), all)
  {
    hide StartsWith, IsInline, Alike, CardLine, SectionLine, InlineLine, CloseCard, OpenCard, WithErrors, StripInlineComment, ToUpper;
    var line := StripInlineComment(raw);
    var upper := ToUpper(line);
    AlikeParts(p, q, all);
    if line == "" {
    } else if IsInline(upper) {
      InlineAlike(x, p, q, all, line, upper);
    } else if StartsWith(upper, "END-CARD") {
      if p.card.Some? {
        CloseAlike(p, q, all);
      } else {
        ErrorsAlike(p, q, all, [StrayEndCard], [StrayEndCard]);
      }
    } else if StartsWith(upper, "CARD:") {
      Prefixed(upper, "CARD:");
      if p.card.Some? {
        CutOffAlike(x, p, q, all, line, upper);
        var e := [NoEndCard(p.card.value.def.name)];
        Closed(WithErrors(p, e));
        Closed(WithErrors(q, e));
        OpenAlike(CloseCard(WithErrors(p, e)), CloseCard(WithErrors(q, e)), all, line);
      } else {
        OpenAlike(p, q, all, line);
      }
    } else if p.card.Some? {
      CardLineAlike(x, p, q, all, line, upper);
    } else {
      SectionLineAlike(x, p, q, all, line, upper);
    }
  }

  lemma Closed(p: Parse)
    requires p.card.Some?
    ensures CloseCard(p).card.None?
  {
    hide FinishCard, Defined, TwiceErrors;
  }

  lemma {:induction false} LinesAlike(x: Leaves, p: Parse, q: Parse, all: bool, lines: seq<string>)
    requires Alike(p, q, all)
    ensures Alike(ReadLines(x, p, lines), ReadLines(x, q, lines), all)
    decreases |lines|
  {
    hide ReadLine, Alike;
    if lines != [] {
      LineAlike(x, p, q, all, lines[0]);
      LinesAlike(x, ReadLine(x, p, lines[0]), ReadLine(x, q, lines[0]), all, lines[1..]);
    }
  }

  // ---------------------------------------------------------------- results

  function Uncarded(events: seq<Event>): (r: seq<Event>)
    ensures |r| == |events|
    ensures forall i :: 0 <= i < |r| ==> r[i] == if events[i].Directive? then events[i].(card := None) else events[i]
  {
    seq(|events|, i requires 0 <= i < |events| => if events[i].Directive? then events[i].(card := None) else events[i])
  }

  /** A result but for its card definitions: no cards on events, no reader flag, no complaints. */
  function ButForCards(r: Result): Result {
    r.(keystrokes := Uncarded(r.keystrokes), usesCardReader := false, errors := [])
  }

  lemma AttachedUncarded(events: seq<Event>, cards: map<string, CardDef>)
    ensures Uncarded(AttachAll(events, cards)) == Uncarded(events)
  {
    hide MemoryCardKey, IsMemoryCardName;
    var a := AttachAll(events, cards);
    forall i | 0 <= i < |events| ensures Uncarded(a)[i] == Uncarded(events)[i] {
      assert a[i] == Attached(events[i], cards);
    }
  }

  lemma EndAlike(p: Parse, q: Parse, all: bool)
    requires Alike(p, q, all)
    ensures Alike(Ended(p), Ended(q), all)
  {
    hide Alike, CloseCard, WithErrors;
    AlikeParts(p, q, all);
    if p.card.Some? {
      var e := [NoEndCard(p.card.value.def.name)];
      ErrorsAlike(p, q, all, e, e);
      assert WithErrors(p, e).card.Some? && WithErrors(q, e).card.Some? by { ErrorsKeepCard(p, e); ErrorsKeepCard(q, e); }
      CloseAlike(WithErrors(p, e), WithErrors(q, e), all);
    }
  }

  lemma ErrorsKeepCard(p: Parse, e: seq<Error>)
    ensures WithErrors(p, e).card == p.card
  {
  }

  lemma BlockAlike(x: Leaves, p: Parse, b: Block)
    ensures Alike(WithBlock(x, p, b), p, true)
  {
    hide CardOf, Complaints, Defined, TwiceErrors;
  }

  /**
   Putting a well-formed CARD block between any two lines outside a card leaves the parse as it
   was, but for card definitions, the cards on events, the reader flag and the complaints:
   section, step, reload stage and keystroke order all go on.
   */
  lemma BlockLeavesTheRest(x: Leaves, a: seq<string>, b: Block, c: seq<string>)
    requires WellFormed(b) && ReadLines(x, Beginning(), a).card.None?
    ensures ButForCards(ParseStateFile(x, a + LinesOf(b) + c)) == ButForCards(ParseStateFile(x, a + c))
  {
    hide ReadLines, Alike, WellFormed, WithBlock, Ended, LinesOf;
    var p := ReadLines(x, Beginning(), a);
    ReadAppend(x, Beginning(), a, LinesOf(b));
    ReadAppend(x, Beginning(), a + LinesOf(b), c);
    ReadAppend(x, Beginning(), a, c);
    BlockAdds(x, p, b);
    BlockAlike(x, p, b);
    LinesAlike(x, WithBlock(x, p, b), p, true, c);
    var u, v := ReadLines(x, WithBlock(x, p, b), c), ReadLines(x, p, c);
    EndAlike(u, v, true);
    AlikeParts(Ended(u), Ended(v), true);
    AttachedUncarded(Ended(u).r.keystrokes, Ended(u).cards);
    AttachedUncarded(Ended(v).r.keystrokes, Ended(v).cards);
  }

  // ---------------------------------------------------------------- a block anywhere

  /** A line that neither opens nor closes a block. */
  predicate IsQuiet(raw: string) {
    var u := UpperOf(raw);
    IsInline(u) || (!StartsWith(u, "END-CARD") && !StartsWith(u, "CARD:"))
  }

  lemma SectionKeepsCards(x: Leaves, p: Parse, line: string, upper: string)
    requires p.card.None? && |upper| == |line|
    ensures var q := SectionLine(x, p, line, upper); q.card.None? && q.cards == p.cards
  {
    hide StartsWith, ParsePartition, ParseProgLine, MoreCue, Numbered;
    Prefixed(upper, "PARTITION:");
  }

  lemma QuietKeepsCards(x: Leaves, p: Parse, raw: string)
    requires p.card.None? && IsQuiet(raw)
    ensures var q := ReadLine(x, p, raw); q.card.None? && q.cards == p.cards
  {
    hide StartsWith, IsInline, SectionLine, CardLine, StripInlineComment, ToUpper, InlineLine;
    var line := StripInlineComment(raw);
    SectionKeepsCards(x, p, line, ToUpper(line));
    if IsInline(ToUpper(line)) {
      InlineKeepsCards(x, p, line, ToUpper(line));
    }
  }

  lemma InlineKeepsCards(x: Leaves, p: Parse, line: string, upper: string)
    requires |upper| == |line| && IsInline(upper)
    ensures InlineLine(x, p, line, upper).card == p.card && InlineLine(x, p, line, upper).cards == p.cards
  {
    hide Trim, IsOn, ToUpper;
  }

  lemma {:induction false} QuietLinesKeepCards(x: Leaves, p: Parse, lines: seq<string>)
    requires p.card.None? && forall i :: 0 <= i < |lines| ==> IsQuiet(lines[i])
    ensures var q := ReadLines(x, p, lines); q.card.None? && q.cards == p.cards
    decreases |lines|
  {
    hide ReadLine, IsQuiet;
    if lines != [] {
      QuietKeepsCards(x, p, lines[0]);
      QuietLinesKeepCards(x, ReadLine(x, p, lines[0]), lines[1..]);
    }
  }

  /** Once on, the reader flag stays on. */
  lemma FlagStays(x: Leaves, p: Parse, raw: string)
    requires p.r.usesCardReader
    ensures ReadLine(x, p, raw).r.usesCardReader
  {
    var on := p;
    hide StartsWith, IsInline, StripInlineComment, ToUpper, SectionLine, CardLine, InlineLine;
    var line := StripInlineComment(raw);
    var upper := ToUpper(line);
    if line != "" {
      if IsInline(upper) {
        InlineKeepsFlag(x, p, line, upper);
      } else if p.card.Some? {
        CardLineKeepsFlag(x, p, line, upper);
      } else {
        SectionKeepsFlag(x, p, line, upper);
      }
      Prefixed(upper, "CARD:");
    }
  }

  lemma InlineKeepsFlag(x: Leaves, p: Parse, line: string, upper: string)
    requires |upper| == |line| && IsInline(upper) && p.r.usesCardReader
    ensures InlineLine(x, p, line, upper).r.usesCardReader
  {
    hide Trim, IsOn, ToUpper;
  }

  lemma SectionKeepsFlag(x: Leaves, p: Parse, line: string, upper: string)
    requires |upper| == |line| && p.r.usesCardReader
    ensures SectionLine(x, p, line, upper).r.usesCardReader
  {
    hide StartsWith, ParsePartition, ParseProgLine, MoreCue, Numbered;
    Prefixed(upper, "PARTITION:");
  }

  lemma CardLineKeepsFlag(x: Leaves, p: Parse, line: string, upper: string)
    requires |upper| == |line| && p.r.usesCardReader && p.card.Some?
    ensures CardLine(x, p, line, upper).r.usesCardReader
  {
    hide SectionLine, ParsePartition, ParseProgLine, MoreCue, Numbered, BankNumber, IsOn, Trim, ToLower, FinishCard, Defined, TwiceErrors;
    var e := [NoEndCard(p.card.value.def.name)];
    SectionKeepsFlag(x, CloseCard(WithErrors(p, e)), line, upper);
  }

  lemma {:induction false} FlagStaysOn(x: Leaves, p: Parse, lines: seq<string>)
    requires p.r.usesCardReader
    ensures ReadLines(x, p, lines).r.usesCardReader
    decreases |lines|
  {
    hide ReadLine;
    if lines != [] {
      FlagStays(x, p, lines[0]);
      FlagStaysOn(x, ReadLine(x, p, lines[0]), lines[1..]);
    }
  }

  /**
   A block may stand anywhere: before or after lines that touch no block, the whole result is the
   same, cards and their use included, but for the order of complaints.
   */
  lemma BlockMayMove(x: Leaves, a: seq<string>, b: Block, between: seq<string>, c: seq<string>)
    requires WellFormed(b) && ReadLines(x, Beginning(), a).card.None?
    requires forall i :: 0 <= i < |between| ==> IsQuiet(between[i])
    ensures ParseStateFile(x, a + LinesOf(b) + between + c).(errors := []) ==
            ParseStateFile(x, a + between + LinesOf(b) + c).(errors := [])
  {
    hide ReadLines, Alike, WellFormed, WithBlock, Ended, LinesOf, IsQuiet;
    var p := ReadLines(x, Beginning(), a);
    ReadAppend(x, Beginning(), a, LinesOf(b));
    ReadAppend(x, Beginning(), a + LinesOf(b), between);
    ReadAppend(x, Beginning(), a + LinesOf(b) + between, c);
    ReadAppend(x, Beginning(), a, between);
    ReadAppend(x, Beginning(), a + between, LinesOf(b));
    ReadAppend(x, Beginning(), a + between + LinesOf(b), c);
    var q := ReadLines(x, p, between);
    QuietLinesKeepCards(x, p, between);
    BlockAdds(x, p, b);
    BlockAdds(x, q, b);
    var early := ReadLines(x, WithBlock(x, p, b), between);
    var late := WithBlock(x, q, b);
    EarlyLate(x, p, b, between);
    LinesAlike(x, early, late, false, c);
    var u, v := ReadLines(x, early, c), ReadLines(x, late, c);
    EndAlike(u, v, false);
    AlikeParts(Ended(u), Ended(v), false);
  }

  lemma EarlyLate(x: Leaves, p: Parse, b: Block, between: seq<string>)
    requires p.card.None? && forall i :: 0 <= i < |between| ==> IsQuiet(between[i])
    ensures Alike(ReadLines(x, WithBlock(x, p, b), between), WithBlock(x, ReadLines(x, p, between), b), false)
  {
    hide ReadLines, Alike, IsQuiet, CardOf, Complaints, Defined, TwiceErrors;
    var q := ReadLines(x, p, between);
    BlockAlike(x, p, b);
    LinesAlike(x, WithBlock(x, p, b), p, true, between);
    QuietLinesKeepCards(x, p, between);
    QuietLinesKeepCards(x, WithBlock(x, p, b), between);
    FlagStaysOn(x, WithBlock(x, p, b), between);
    var early := ReadLines(x, WithBlock(x, p, b), between);
    AlikeParts(early, q, true);
    PartsAlike(early, WithBlock(x, q, b), false);
  }
}
