/**
 The preset parser's section machine. A CARD block may stand anywhere: it defines its card and
 leaves everything else, section, step and reload stage included, as if it were not there.
 Register and keystroke lines and model names are read by parameters.
 */
module StateFile {
  import opened Words
  import opened TextUtil
  import opened Bcd

  // ---------------------------------------------------------------- what a preset holds

  type Keycode = x: int | 0 <= x < 100

  datatype ProgramStep = ProgramStep(addr: nat, keycode: Keycode)

  datatype RegisterValue = RegisterValue(num: nat, nibbles: Nibbles16, hidden: bool)

  /** A CARD block: bank 0 until its Bank line. */
  datatype CardDef = CardDef(
    name: string, bank: nat, protect: bool, partition: Option<int>, steps: seq<ProgramStep>, registers: seq<RegisterValue>,
    cue: Option<seq<string>>)

  /** A reload stage: what to change once the calculator is idle. */
  datatype Stage = Stage(
    partition: Option<int>, steps: seq<ProgramStep>, registers: seq<RegisterValue>, cue: Option<seq<string>>)

  /** A keystroke event: a reload stage by its number, or a directive, perhaps with a card. */
  datatype Event = Reload(stage: nat) | Directive(what: string, cardName: string, card: Option<CardDef>)

  datatype Model = TI59 | TI58 | TI58C

  datatype Error =
    | SkipReset | UnknownModel(name: string) | StrayEndCard | NoEndCard(card: string) | NotMemoryCard(card: string)
    | NoBank(card: string) | BadBank(card: string) | NotInBank(card: string, number: nat) | DefinedTwice(card: string)
    | BadPartition(card: string) | UnexpectedLine(card: string, line: string) | InLine(line: string)

  datatype Result = Result(
    partition: int, explicitPartition: bool, steps: seq<ProgramStep>, registers: seq<RegisterValue>, keystrokes: seq<Event>,
    stages: seq<Stage>, cue: Option<seq<string>>, moduleId: Option<string>, printer: Option<bool>, model: Option<Model>,
    usesCardReader: bool, errors: seq<Error>)

  datatype Section = Nowhere | InPartition | InProgram | InRegisters | InKeystrokes | InCue

  /** An open CARD block, and what it interrupted. */
  datatype Open = Open(def: CardDef, section: Section, step: nat)

  datatype Parse = Parse(
    r: Result, section: Section, step: nat, afterKeystrokes: bool, reload: Option<nat>, card: Option<Open>,
    cards: map<string, CardDef>)

  /** What a keystroke line gives: events, an error, and whether it uses the card reader. */
  datatype Strokes = Strokes(events: seq<Event>, errors: seq<Error>, usesCards: bool)

  datatype Registered = Registered(values: seq<RegisterValue>, errors: seq<Error>)

  /** The parsers of single lines that do not touch the section machine. */
  datatype Leaves = Leaves(
    register: (string, bool) -> Registered, keystroke: string -> Strokes, model: string -> Option<Model>,
    maxStep: nat, allowHidden: bool)

  // ---------------------------------------------------------------- single lines

  predicate IsOn(value: string) {
    var v := ToLower(Trim(value));
    v == "on" || v == "true" || v == "1"
  }

  /** The first multiple of 80 from `from` on that is not below the steps, 960 at most. */
  function RoundSteps(steps: int, from: int): int
    requires 0 < from
    decreases 960 - from
  {
    if from >= 960 || from >= steps then (if from > 960 then 960 else from) else RoundSteps(steps, from + 80)
  }

  /** A PARTITION value's last step, rounded up to whole groups of ten registers. */
  function ParsePartition(rest: string): Option<int> {
    match ParseDec(Trim(rest[..Find(rest, {'.'})]))
    case None => None
    case Some(n) => Some(RoundSteps(n + 1, 80) - 1)
  }

  /** It is the smallest group boundary that holds the steps, between 80 and 960 of them. */
  lemma {:induction false} RoundedUp(steps: int, from: int)
    requires 80 <= from <= 960 && from % 80 == 0 && (from == 80 || from - 80 < steps)
    ensures var r := RoundSteps(steps, from);
            && 80 <= r <= 960 && r % 80 == 0 && (steps <= 960 ==> r >= steps) && (r > 80 ==> r - 80 < steps)
    decreases 960 - from
  {
    if from < 960 && from < steps {
      RoundedUp(steps, from + 80);
    }
  }

  method ReadPartition(rest: string) returns (last: Option<int>)
    ensures last == ParsePartition(rest)
    ensures last.Some? ==> 79 <= last.value <= 959 && (last.value + 1) % 80 == 0
  {
    var n := ParseDecText(Trim(rest[..Find(rest, {'.'})]));
    if n.None? {
      return None;
    }
    var steps := n.value + 1;
    RoundedUp(steps, 80);
    var rounded := 960;
    var b := 80;
    while b <= 960
      invariant 80 <= b && b % 80 == 0 && b <= 1040
      invariant rounded == 960
      invariant b <= 960 ==> RoundSteps(steps, b) == RoundSteps(steps, 80)
      invariant b > 960 ==> RoundSteps(steps, 80) == 960
      decreases 1040 - b
    {
      if b >= steps {
        rounded := b;
        break;
      }
      b := b + 80;
    }
    last := Some(rounded - 1);
  }

  /** Pieces between whitespace of any kind, empty ones dropped. */
  function SplitWhitespace(s: string, start: nat, i: nat): seq<string>
    requires start <= i
    decreases |s| - i
  {
    if i >= |s| then (if start < |s| then [s[start..]] else [])
    else
      var n := SpaceAt(s, i);
      if n > 0 then (if i > start then [s[start..i]] else []) + SplitWhitespace(s, i + n, i + n)
      else SplitWhitespace(s, start, i + 1)
  }

  /** Unicode characters: the bytes that do not continue one. */
  function CharCount(s: string): nat {
    if s == "" then 0 else CharCount(s[..|s| - 1]) + (if s[|s| - 1] as int / 64 % 4 == 2 then 0 else 1)
  }

  /** A keycode token: one or two characters, a number from 0 to 99. */
  function KeycodeOf(token: string): (r: seq<Keycode>)
    ensures |r| <= 1 && (CharCount(token) > 2 ==> r == [])
  {
    if CharCount(token) > 2 then []
    else
      match ParseDec(token)
      case None => []
      case Some(k) => if 0 <= k <= 99 then [k] else []
  }

  function KeycodesOf(tokens: seq<string>): seq<Keycode> {
    if tokens == [] then [] else KeycodesOf(tokens[..|tokens| - 1]) + KeycodeOf(tokens[|tokens| - 1])
  }

  /** A step number in front: three characters or more, no past the last step. */
  function StepPrefix(token: string, maxStep: nat): Option<nat> {
    if CharCount(token) < 3 then None
    else
      match ParseDec(token)
      case None => None
      case Some(n) => if 0 <= n <= maxStep then Some(n) else None
  }

  datatype ProgLine = ProgLine(start: Option<nat>, codes: seq<Keycode>)

  /** A prefixed line carries the one keycode after the prefix, any other line a keycode in every short token. */
  function ParseProgLine(line: string, maxStep: nat): ProgLine {
    var tokens := SplitWhitespace(line, 0, 0);
    if tokens == [] then ProgLine(None, [])
    else
      var start := StepPrefix(tokens[0], maxStep);
      if start.Some? then ProgLine(start, if |tokens| > 1 then KeycodeOf(tokens[1]) else [])
      else ProgLine(None, KeycodesOf(tokens))
  }

  predicate IsMemoryCardName(name: string) {
    |name| >= 4 && ToLower(name[..4]) == "mem:"
  }

  function MemoryCardKey(name: string): string
    requires |name| >= 4
  {
    name[4..]
  }

  // ---------------------------------------------------------------- a CARD block's end

  predicate StepInBank(step: nat, bank: nat) { 240 * (bank - 1) <= step < 240 * bank }

  predicate RegisterInBank(reg: nat, bank: nat) { 120 - 30 * bank <= reg <= 149 - 30 * bank }

  function StepsKept(steps: seq<ProgramStep>, bank: nat): seq<ProgramStep> {
    if steps == [] then []
    else StepsKept(steps[..|steps| - 1], bank) + (if StepInBank(steps[|steps| - 1].addr, bank) then [steps[|steps| - 1]] else [])
  }

  function RegistersKept(regs: seq<RegisterValue>, bank: nat): seq<RegisterValue> {
    if regs == [] then []
    else RegistersKept(regs[..|regs| - 1], bank) + (if RegisterInBank(regs[|regs| - 1].num, bank) then [regs[|regs| - 1]] else [])
  }

  function StepErrors(name: string, steps: seq<ProgramStep>, bank: nat): seq<Error> {
    if steps == [] then []
    else StepErrors(name, steps[..|steps| - 1], bank)
         + (if StepInBank(steps[|steps| - 1].addr, bank) then [] else [NotInBank(name, steps[|steps| - 1].addr)])
  }

  function RegisterErrors(name: string, regs: seq<RegisterValue>, bank: nat): seq<Error> {
    if regs == [] then []
    else RegisterErrors(name, regs[..|regs| - 1], bank)
         + (if RegisterInBank(regs[|regs| - 1].num, bank) then [] else [NotInBank(name, regs[|regs| - 1].num)])
  }

  /** A finished block: the card it defines, if it can be used, and what is wrong with it. */
  datatype Finished = Finished(card: Option<CardDef>, errors: seq<Error>)

  function FinishCard(c: CardDef): Finished {
    if !IsMemoryCardName(c.name) || MemoryCardKey(c.name) == "" then Finished(None, [NotMemoryCard(c.name)])
    else if c.bank == 0 then Finished(None, [NoBank(c.name)])
    else
      Finished(Some(c.(steps := StepsKept(c.steps, c.bank), registers := RegistersKept(c.registers, c.bank))),
               StepErrors(c.name, c.steps, c.bank) + RegisterErrors(c.name, c.registers, c.bank))
  }

  /** The card enters the file's cards, and the section it interrupted goes on. */
  function CloseCard(p: Parse): Parse
    requires p.card.Some?
  {
    var open := p.card.value;
    var f := FinishCard(open.def);
    p.(card := None, section := open.section, step := open.step, cards := Defined(p.cards, f.card),
       r := p.r.(errors := p.r.errors + f.errors + TwiceErrors(p.cards, f.card)))
  }

  function Defined(cards: map<string, CardDef>, c: Option<CardDef>): map<string, CardDef> {
    if c.Some? && |c.value.name| >= 4 then cards[MemoryCardKey(c.value.name) := c.value] else cards
  }

  function TwiceErrors(cards: map<string, CardDef>, c: Option<CardDef>): seq<Error> {
    if c.Some? && |c.value.name| >= 4 && MemoryCardKey(c.value.name) in cards then [DefinedTwice(c.value.name)] else []
  }

  // ---------------------------------------------------------------- the section machine

  function WithErrors(p: Parse, errors: seq<Error>): Parse {
    p.(r := p.r.(errors := p.r.errors + errors))
  }

  /** The first reload section after KEYSTROKES opens a stage, played in turn. */
  function OpenStage(p: Parse): Parse {
    var opens := p.afterKeystrokes && p.reload.None?;
    p.(reload := if opens then Some(|p.r.stages|) else p.reload,
       step := if opens then 0 else p.step,
       r := if opens
            then p.r.(stages := p.r.stages + [Stage(None, [], [], None)], keystrokes := p.r.keystrokes + [Reload(|p.r.stages|)])
            else p.r)
  }

  predicate InStage(p: Parse) {
    p.reload.Some? && p.reload.value < |p.r.stages|
  }

  function WithStage(p: Parse, s: Stage): Parse
    requires InStage(p)
  {
    p.(r := p.r.(stages := p.r.stages[p.reload.value := s]))
  }

  function StageOf(p: Parse): Stage
    requires InStage(p)
  {
    p.r.stages[p.reload.value]
  }

  function ReadPartitionLine(p: Parse, rest: string): Parse {
    var last := ParsePartition(Trim(rest));
    var q := OpenStage(p).(section := InPartition);
    if InStage(q) then (if last.Some? then WithStage(q, StageOf(q).(partition := last)) else q)
    else q.(r := q.r.(partition := if last.Some? then last.value else q.r.partition, explicitPartition := true))
  }

  function ReadCueMark(p: Parse): Parse {
    var q := OpenStage(p).(section := InCue);
    if InStage(q) then WithStage(q, StageOf(q).(cue := Some([]))) else q.(r := q.r.(cue := Some([])))
  }

  function Numbered(codes: seq<Keycode>, first: nat): seq<ProgramStep> {
    seq(|codes|, i requires 0 <= i < |codes| => ProgramStep(first + i, codes[i]))
  }

  function AddSteps(p: Parse, steps: seq<ProgramStep>): Parse {
    if p.card.Some? then p.(card := Some(p.card.value.(def := p.card.value.def.(steps := p.card.value.def.steps + steps))))
    else if InStage(p) then WithStage(p, StageOf(p).(steps := StageOf(p).steps + steps))
    else p.(r := p.r.(steps := p.r.steps + steps))
  }

  function AddRegisters(p: Parse, regs: seq<RegisterValue>): Parse {
    if p.card.Some? then
      p.(card := Some(p.card.value.(def := p.card.value.def.(registers := p.card.value.def.registers + regs))))
    else if InStage(p) then WithStage(p, StageOf(p).(registers := StageOf(p).registers + regs))
    else p.(r := p.r.(registers := p.r.registers + regs))
  }

  function MoreCue(cue: Option<seq<string>>, line: string): Option<seq<string>> {
    if cue.Some? then Some(cue.value + [line]) else Some([line])
  }

  function AddCue(p: Parse, line: string): Parse {
    if p.card.Some? then
      p.(card := Some(p.card.value.(def := p.card.value.def.(cue := MoreCue(p.card.value.def.cue, line)))))
    else if InStage(p) then WithStage(p, StageOf(p).(cue := MoreCue(StageOf(p).cue, line)))
    else p.(r := p.r.(cue := MoreCue(p.r.cue, line)))
  }

  function ReadProgram(x: Leaves, p: Parse, line: string): Parse {
    if line == "..." then p
    else
      var l := ParseProgLine(line, x.maxStep);
      var first := if l.start.Some? then l.start.value else p.step;
      AddSteps(p.(step := first + |l.codes|), Numbered(l.codes, first))
  }

  function ReadRegister(x: Leaves, p: Parse, line: string): Parse {
    var l := x.register(line, x.allowHidden && p.card.None?);
    WithErrors(AddRegisters(p, l.values), l.errors)
  }

  function ReadKeystrokes(x: Leaves, p: Parse, line: string): Parse {
    var l := x.keystroke(line);
    p.(r := p.r.(keystrokes := p.r.keystrokes + l.events, errors := p.r.errors + l.errors,
                 usesCardReader := p.r.usesCardReader || l.usesCards))
  }

  /** A line inside a section. */
  function Content(x: Leaves, p: Parse, line: string): Parse {
    match p.section
    case InProgram => ReadProgram(x, p, line)
    case InRegisters => ReadRegister(x, p, line)
    case InKeystrokes => ReadKeystrokes(x, p, line)
    case InCue => AddCue(p, line)
    case _ => p
  }

  /** Section marks and content outside a card, or content that a card's own section takes. */
  function SectionLine(x: Leaves, p: Parse, line: string, upper: string): Parse
    requires |upper| == |line|
  {
    if StartsWith(upper, "PARTITION:") then ReadPartitionLine(p, line[10..])
    else if StartsWith(upper, "PROGRAM:") then OpenStage(p).(section := InProgram)
    else if StartsWith(upper, "REGISTERS:") then OpenStage(p).(section := InRegisters)
    else if StartsWith(upper, "CUECARD:") then ReadCueMark(p)
    else if StartsWith(upper, "KEYSTROKES:") then p.(afterKeystrokes := true, reload := None, section := InKeystrokes)
    else Content(x, p, line)
  }

  function WithDef(p: Parse, c: CardDef): Parse
    requires p.card.Some?
  {
    p.(card := Some(p.card.value.(def := c)))
  }

  function BankNumber(rest: string): Option<nat> {
    match ParseDec(Trim(rest))
    case None => None
    case Some(n) => if 1 <= n <= 4 then Some(n) else None
  }

  function FirstStep(bank: nat): nat { if bank > 0 then 240 * (bank - 1) else 0 }

  /** A line inside CARD … END-CARD. */
  function CardLine(x: Leaves, p: Parse, line: string, upper: string): Parse
    requires p.card.Some? && |upper| == |line|
  {
    var c := p.card.value.def;
    if StartsWith(upper, "BANK:") then
      match BankNumber(line[5..])
      case Some(n) => WithDef(p, c.(bank := n))
      case None => WithErrors(p, [BadBank(c.name)])
    else if StartsWith(upper, "PROTECTED:") then
      WithDef(p, c.(protect := IsOn(line[10..]) || ToLower(Trim(line[10..])) == "yes"))
    else if StartsWith(upper, "PARTITION:") then
      var last := ParsePartition(Trim(line[10..]));
      WithErrors(WithDef(p, c.(partition := last)), if last.None? then [BadPartition(c.name)] else [])
    else if StartsWith(upper, "PROGRAM:") then p.(section := InProgram, step := FirstStep(c.bank))
    else if StartsWith(upper, "REGISTERS:") then p.(section := InRegisters)
    else if StartsWith(upper, "CUECARD:") then WithDef(p, c.(cue := Some([]))).(section := InCue)
    else if StartsWith(upper, "KEYSTROKES:") then
      SectionLine(x, CloseCard(WithErrors(p, [NoEndCard(c.name)])), line, upper)
    else if p.section != InProgram && p.section != InRegisters && p.section != InCue then
      WithErrors(p, [UnexpectedLine(c.name, line)])
    else Content(x, p, line)
  }

  function OpenCard(p: Parse, line: string): Parse
    requires p.card.None? && |line| >= 5
  {
    p.(card := Some(Open(CardDef(Trim(line[5..]), 0, false, None, [], [], None), p.section, p.step)), section := Nowhere,
       r := p.r.(usesCardReader := true))
  }

  function ReadModel(x: Leaves, p: Parse, value: string): Parse {
    match x.model(value)
    case Some(m) => p.(r := p.r.(model := Some(m)))
    case None => WithErrors(p, [UnknownModel(value)])
  }

  function ReadModule(p: Parse, id: string): Parse {
    p.(r := p.r.(moduleId := if id != "" then Some(id) else p.r.moduleId))
  }

  /** Directives with a value on their line, anywhere in the file. */
  predicate IsInline(upper: string) {
    StartsWith(upper, "SOLID-STATE-MODULE:") || StartsWith(upper, "PRINTER:") || StartsWith(upper, "SKIP-RESET:") ||
    StartsWith(upper, "MODEL:")
  }

  function InlineLine(x: Leaves, p: Parse, line: string, upper: string): Parse
    requires |upper| == |line| && IsInline(upper)
  {
    if StartsWith(upper, "SOLID-STATE-MODULE:") then ReadModule(p, Trim(line[19..]))
    else if StartsWith(upper, "PRINTER:") then p.(r := p.r.(printer := Some(IsOn(line[8..]))))
    else if StartsWith(upper, "SKIP-RESET:") then WithErrors(p, [SkipReset])
    else ReadModel(x, p, ToUpper(Trim(line[6..])))
  }

  /** A stripped line that is not empty. */
  function Dispatch(x: Leaves, p: Parse, line: string, upper: string): Parse
    requires |upper| == |line|
  {
    if IsInline(upper) then InlineLine(x, p, line, upper)
    else if StartsWith(upper, "END-CARD") then
      if p.card.Some? then CloseCard(p) else WithErrors(p, [StrayEndCard])
    else if StartsWith(upper, "CARD:") then
      OpenCard(if p.card.Some? then CloseCard(WithErrors(p, [NoEndCard(p.card.value.def.name)])) else p, line)
    else if p.card.Some? then CardLine(x, p, line, upper)
    else SectionLine(x, p, line, upper)
  }

  function ReadLine(x: Leaves, p: Parse, raw: string): Parse {
    var line := StripInlineComment(raw);
    if line == "" then p else Dispatch(x, p, line, ToUpper(line))
  }

  function ReadLines(x: Leaves, p: Parse, lines: seq<string>): Parse
    decreases |lines|
  {
    if lines == [] then p else ReadLines(x, ReadLine(x, p, lines[0]), lines[1..])
  }

  function Beginning(): Parse {
    Parse(Result(479, false, [], [], [], [], None, None, None, None, false, []), Nowhere, 0, false, None, None, map[])
  }

  /** The directive's card, once every block has been read. */
  function Attached(e: Event, cards: map<string, CardDef>): Event {
    if e.Directive? && IsMemoryCardName(e.cardName) && MemoryCardKey(e.cardName) in cards
    then e.(card := Some(cards[MemoryCardKey(e.cardName)])) else e
  }

  function AttachAll(events: seq<Event>, cards: map<string, CardDef>): (r: seq<Event>)
    ensures |r| == |events| && forall i :: 0 <= i < |r| ==> r[i] == Attached(events[i], cards)
  {
    seq(|events|, i requires 0 <= i < |events| => Attached(events[i], cards))
  }

  /** The end of the file closes a block left open, then attaches the cards. */
  function Ended(p: Parse): Parse {
    if p.card.Some? then CloseCard(WithErrors(p, [NoEndCard(p.card.value.def.name)])) else p
  }

  function Finish(p: Parse): Result {
    var q := Ended(p);
    q.r.(keystrokes := AttachAll(q.r.keystrokes, q.cards))
  }

  function ParseStateFile(x: Leaves, lines: seq<string>): Result {
    Finish(ReadLines(x, Beginning(), lines))
  }

  lemma {:induction false} ReadAppend(x: Leaves, p: Parse, a: seq<string>, b: seq<string>)
    ensures ReadLines(x, p, a + b) == ReadLines(x, ReadLines(x, p, a), b)
    decreases |a|
  {
    hide ReadLine;
    if a == [] {
      assert a + b == b;
    } else {
      assert (a + b)[1..] == a[1..] + b && (a + b)[0] == a[0];
      ReadAppend(x, ReadLine(x, p, a[0]), a[1..], b);
    }
  }

  method ReadStateFile(x: Leaves, text: string) returns (r: Result)
    ensures r == ParseStateFile(x, SplitLines(text))
  {
    hide ReadLine;
    var lines := SplitIntoLines(text);
    var p := Beginning();
    var i := 0;
    while i < |lines|
      invariant i <= |lines| && ReadLines(x, Beginning(), lines) == ReadLines(x, p, lines[i..])
    {
      assert lines[i..][1..] == lines[i + 1..];
      p := ReadLine(x, p, lines[i]);
      i := i + 1;
    }
    r := Finish(p);
  }
}
