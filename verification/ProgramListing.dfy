/**
 Program listings in a preset: the lines of a PROGRAM section, two digits a step, land at
 consecutive steps, and a line that names its step lands there.
 */
module ProgramListing {
  import opened Words
  import opened TextUtil
  import opened StateFile

  // ---------------------------------------------------------------- how a program is written

  function Digit(d: nat): (c: char)
    requires d < 10
    ensures DecDigit(c) == d
  {
    ('0' as int + d) as char
  }

  function TwoDigits(k: Keycode): (s: string)
    ensures |s| == 2
  {
    [Digit(k / 10), Digit(k % 10)]
  }

  function ThreeDigits(n: nat): (s: string)
    requires n < 1000
    ensures |s| == 3
  {
    [Digit(n / 100), Digit(n / 10 % 10), Digit(n % 10)]
  }

  /** Keycodes of two digits, a space between one and the next. */
  function Row(codes: seq<Keycode>): (s: string)
    requires codes != []
    ensures |s| == 3 * |codes| - 1
  {
    if |codes| == 1 then TwoDigits(codes[0]) else TwoDigits(codes[0]) + " " + Row(codes[1..])
  }

  type CodeRow = r: seq<Keycode> | r != [] witness [0]

  function Rows(rows: seq<CodeRow>): (r: seq<string>)
    ensures |r| == |rows|
  {
    seq(|rows|, i requires 0 <= i < |rows| => Row(rows[i]))
  }

  function Joined(rows: seq<CodeRow>): seq<Keycode> {
    if rows == [] then [] else rows[0] + Joined(rows[1..])
  }

  // ---------------------------------------------------------------- a row's characters

  /** A character of a row. */
  predicate Plain(c: char) { c == ' ' || '0' <= c <= '9' }

  lemma {:induction false} RowAt(codes: seq<Keycode>, k: nat)
    requires k < |codes|
    ensures Row(codes)[3 * k..3 * k + 2] == TwoDigits(codes[k])
    ensures k + 1 < |codes| ==> Row(codes)[3 * k + 2] == ' '
    decreases k
  {
    var s := Row(codes);
    if k == 0 {
      assert s[0..2] == TwoDigits(codes[0]);
    } else {
      var rest := Row(codes[1..]);
      RowAt(codes[1..], k - 1);
      assert s == TwoDigits(codes[0]) + " " + rest;
      assert s[3..] == rest;
      assert s[3 * k..3 * k + 2] == rest[3 * (k - 1)..3 * (k - 1) + 2];
      assert k + 1 < |codes| ==> s[3 * k + 2] == rest[3 * (k - 1) + 2];
    }
  }

  lemma {:induction false} RowPlain(codes: seq<Keycode>)
    requires codes != []
    ensures forall i :: 0 <= i < |Row(codes)| ==> Plain(Row(codes)[i])
    ensures var s := Row(codes); '0' <= s[0] <= '9' && '0' <= s[|s| - 1] <= '9'
    decreases |codes|
  {
    if |codes| > 1 {
      RowPlain(codes[1..]);
    }
  }

  // ---------------------------------------------------------------- tokens

  lemma NoSpaceAt(s: string, i: nat)
    requires i < |s| && '0' <= s[i] <= '9'
    ensures SpaceAt(s, i) == 0
  {
  }

  /** A token between spaces, and the tokens after it. */
  lemma TokenSplit(s: string, i: nat)
    requires i + 2 <= |s| && '0' <= s[i] <= '9' && '0' <= s[i + 1] <= '9' && (i + 2 < |s| ==> s[i + 2] == ' ')
    ensures SplitWhitespace(s, i, i) == [s[i..i + 2]] + if i + 2 < |s| then SplitWhitespace(s, i + 3, i + 3) else []
  {
    NoSpaceAt(s, i);
    NoSpaceAt(s, i + 1);
    assert SplitWhitespace(s, i, i) == SplitWhitespace(s, i, i + 1);
    assert SplitWhitespace(s, i, i + 1) == SplitWhitespace(s, i, i + 2);
    if i + 2 < |s| {
      assert SpaceAt(s, i + 2) == 1;
    } else {
      assert s[i..] == s[i..i + 2];
    }
  }

  function Tokens(codes: seq<Keycode>): (r: seq<string>)
    ensures |r| == |codes|
  {
    seq(|codes|, i requires 0 <= i < |codes| => TwoDigits(codes[i]))
  }

  lemma TokenAt(codes: seq<Keycode>, k: nat)
    requires k < |codes|
    ensures var s, i := Row(codes), 3 * k;
            && i + 2 <= |s| && s[i..i + 2] == TwoDigits(codes[k]) && (k + 1 < |codes| ==> i + 3 < |s|) && (k + 1 == |codes| ==> i + 2 == |s|)
            && '0' <= s[i] <= '9' && '0' <= s[i + 1] <= '9' && (i + 2 < |s| ==> s[i + 2] == ' ')
  {
    hide Row;
    RowAt(codes, k);
    var s := Row(codes);
    assert s[3 * k] == s[3 * k..3 * k + 2][0] && s[3 * k + 1] == s[3 * k..3 * k + 2][1];
  }

  lemma {:induction false} RowSplit(codes: seq<Keycode>, k: nat)
    requires k < |codes|
    ensures SplitWhitespace(Row(codes), 3 * k, 3 * k) == Tokens(codes)[k..]
    decreases |codes| - k
  {
    hide SplitWhitespace, SpaceAt, Row, TwoDigits;
    TokenAt(codes, k);
    TokenSplit(Row(codes), 3 * k);
    if k + 1 < |codes| {
      RowSplit(codes, k + 1);
      assert Tokens(codes)[k..] == [TwoDigits(codes[k])] + Tokens(codes)[k + 1..];
    } else {
      assert Tokens(codes)[k..] == [TwoDigits(codes[k])];
    }
  }

  /** Digits are characters of one byte. */
  lemma {:induction false} DigitCount(s: string)
    requires forall i :: 0 <= i < |s| ==> '0' <= s[i] <= '9'
    ensures CharCount(s) == |s|
  {
    if s != "" {
      DigitCount(s[..|s| - 1]);
    }
  }

  lemma OneMoreDigit(s: string, d: nat)
    requires d < 10
    ensures Value(DecDigit, 10, s + [Digit(d)]) ==
            match Value(DecDigit, 10, s) case None => None case Some(v) => Some(10 * v + d)
  {
    assert (s + [Digit(d)])[..|s|] == s;
  }

  lemma NoDigits()
    ensures Value(DecDigit, 10, "") == Some(0)
  {
  }

  lemma CodeReads(k: Keycode)
    ensures KeycodeOf(TwoDigits(k)) == [k] && CharCount(TwoDigits(k)) == 2
  {
    hide Value, CharCount;
    var s := TwoDigits(k);
    DigitCount(s);
    NoDigits();
    OneMoreDigit("", k / 10);
    OneMoreDigit([Digit(k / 10)], k % 10);
    assert "" + [Digit(k / 10)] == [Digit(k / 10)];
    assert [Digit(k / 10)] + [Digit(k % 10)] == s;
  }

  lemma StepReads(n: nat, maxStep: nat)
    requires n < 1000 && n <= maxStep
    ensures StepPrefix(ThreeDigits(n), maxStep) == Some(n)
  {
    hide Value, CharCount;
    var s := ThreeDigits(n);
    var a, b, c := Digit(n / 100), Digit(n / 10 % 10), Digit(n % 10);
    DigitCount(s);
    NoDigits();
    OneMoreDigit("", n / 100);
    OneMoreDigit([a], n / 10 % 10);
    OneMoreDigit([a, b], n % 10);
    assert "" + [a] == [a] && [a] + [b] == [a, b] && [a, b] + [c] == s;
  }

  lemma {:induction false} TokensRead(codes: seq<Keycode>)
    ensures KeycodesOf(Tokens(codes)) == codes
    decreases |codes|
  {
    hide KeycodeOf;
    if codes != [] {
      var most, last := codes[..|codes| - 1], codes[|codes| - 1];
      TokensRead(most);
      CodeReads(last);
      assert Tokens(codes)[..|codes| - 1] == Tokens(most);
      assert codes == most + [last];
    }
  }

  /** A row is read as its codes, wherever the program stands. */
  lemma RowReads(codes: seq<Keycode>, maxStep: nat)
    requires codes != []
    ensures ParseProgLine(Row(codes), maxStep) == ProgLine(None, codes)
  {
    hide SplitWhitespace, KeycodesOf, CharCount, ParseDec;
    RowSplit(codes, 0);
    assert Tokens(codes)[0..] == Tokens(codes);
    CodeReads(codes[0]);
    TokensRead(codes);
  }

  /** A step's number, and its code. */
  function Placed(n: nat, k: Keycode): string
    requires n < 1000
  {
    ThreeDigits(n) + " " + TwoDigits(k)
  }

  lemma PlacedSplit(n: nat, k: Keycode)
    requires n < 1000
    ensures SplitWhitespace(Placed(n, k), 0, 0) == [ThreeDigits(n), TwoDigits(k)]
  {
    hide SpaceAt;
    var s := Placed(n, k);
    assert s[0..3] == ThreeDigits(n) && s[3] == ' ' && s[4..] == TwoDigits(k) && s[4..6] == s[4..];
    NoSpaceAt(s, 0);
    NoSpaceAt(s, 1);
    NoSpaceAt(s, 2);
    assert SpaceAt(s, 3) == 1 by { SpaceIsOne(s, 3); }
    TokenSplit(s, 4);
    assert SplitWhitespace(s, 0, 0) == SplitWhitespace(s, 0, 1) == SplitWhitespace(s, 0, 2) == SplitWhitespace(s, 0, 3);
  }

  lemma SpaceIsOne(s: string, i: nat)
    requires i < |s| && s[i] == ' '
    ensures SpaceAt(s, i) == 1
  {
  }

  lemma PlacedReads(n: nat, k: Keycode, maxStep: nat)
    requires n < 1000 && n <= maxStep
    ensures ParseProgLine(Placed(n, k), maxStep) == ProgLine(Some(n), [k])
  {
    hide SplitWhitespace, KeycodesOf, StepPrefix, KeycodeOf;
    PlacedSplit(n, k);
    StepReads(n, maxStep);
    CodeReads(k);
  }

  // ---------------------------------------------------------------- the section machine on a listing

  /** The steps a PROGRAM line adds to: an open block's, else the open stage's, else the preset's. */
  function StepsHere(p: Parse): seq<ProgramStep> {
    if p.card.Some? then p.card.value.def.steps else if InStage(p) then StageOf(p).steps else p.r.steps
  }

  /** The codes stand at consecutive steps from `first` on. */
  predicate StandFrom(steps: seq<ProgramStep>, first: nat, codes: seq<Keycode>) {
    |steps| == |codes| && forall i :: 0 <= i < |codes| ==> steps[i] == ProgramStep(first + i, codes[i])
  }

  /** But for the steps here and the step it stands at, the parse is as it was. */
  predicate OnlySteps(p: Parse, q: Parse, added: seq<ProgramStep>) {
    q.section == p.section && StepsHere(q) == StepsHere(p) + added && AddSteps(p.(step := q.step), added) == q
  }

  /** A text of digits and spaces that begins with a digit is no mark and no directive. */
  lemma NoMark(line: string)
    requires line != "" && '0' <= line[0] <= '9'
    ensures var u := ToUpper(line);
            && !IsInline(u) && !StartsWith(u, "END-CARD") && !StartsWith(u, "CARD:") && !StartsWith(u, "BANK:")
            && !StartsWith(u, "PROTECTED:") && !StartsWith(u, "PARTITION:") && !StartsWith(u, "PROGRAM:")
            && !StartsWith(u, "REGISTERS:") && !StartsWith(u, "CUECARD:") && !StartsWith(u, "KEYSTROKES:") && line != "..."
  {
    var u := ToUpper(line);
    assert u[0] == line[0];
    OtherStart(u, "SOLID-STATE-MODULE:");
    OtherStart(u, "PRINTER:");
    OtherStart(u, "SKIP-RESET:");
    OtherStart(u, "MODEL:");
    OtherStart(u, "END-CARD");
    OtherStart(u, "CARD:");
    OtherStart(u, "BANK:");
    OtherStart(u, "PROTECTED:");
    OtherStart(u, "PARTITION:");
    OtherStart(u, "PROGRAM:");
    OtherStart(u, "REGISTERS:");
    OtherStart(u, "CUECARD:");
    OtherStart(u, "KEYSTROKES:");
  }

  lemma OtherStart(s: string, prefix: string)
    requires s != "" && prefix != "" && s[0] != prefix[0]
    ensures !StartsWith(s, prefix)
  {
    if |s| >= |prefix| {
      assert s[..|prefix|][0] == s[0];
    }
  }

  lemma LineIsProgram(x: Leaves, p: Parse, line: string)
    requires p.section == InProgram && line != "" && '0' <= line[0] <= '9'
    ensures Dispatch(x, p, line, ToUpper(line)) == ReadProgram(x, p, line)
  {
    hide ReadProgram, StartsWith, IsInline, InlineLine, CloseCard, OpenCard, BankNumber, WithDef, WithErrors, OpenStage;
    NoMark(line);
  }

  lemma PlainLine(x: Leaves, p: Parse, line: string)
    requires p.section == InProgram && line != "" && forall i :: 0 <= i < |line| ==> Plain(line[i])
    requires '0' <= line[0] <= '9' && '0' <= line[|line| - 1] <= '9'
    ensures ReadLine(x, p, line) == ReadProgram(x, p, line)
  {
    hide ReadProgram, Dispatch;
    NothingToStrip(line);
    LineIsProgram(x, p, line);
  }

  lemma ProgramAdds(x: Leaves, p: Parse, line: string, first: nat, codes: seq<Keycode>)
    requires line != "..." && ParseProgLine(line, x.maxStep).codes == codes
    requires first == match ParseProgLine(line, x.maxStep).start case Some(n) => n case None => p.step
    ensures var q, added := ReadProgram(x, p, line), Numbered(codes, first);
            q.step == first + |codes| && OnlySteps(p, q, added) && StandFrom(added, first, codes)
  {
    hide ParseProgLine;
  }

  /** One row. */
  lemma RowLands(x: Leaves, p: Parse, codes: seq<Keycode>)
    requires p.section == InProgram && codes != []
    ensures var q, added := ReadLine(x, p, Row(codes)), Numbered(codes, p.step);
            q.step == p.step + |codes| && OnlySteps(p, q, added) && StandFrom(added, p.step, codes)
  {
    hide ReadLine, ReadProgram, ParseProgLine, OnlySteps, StandFrom;
    RowPlain(codes);
    PlainLine(x, p, Row(codes));
    RowReads(codes, x.maxStep);
    assert Row(codes)[0] != '.';
    ProgramAdds(x, p, Row(codes), p.step, codes);
  }

  /** A line that names its step: the code stands there, and the program goes on after it. */
  lemma PlacedLands(x: Leaves, p: Parse, n: nat, k: Keycode)
    requires p.section == InProgram && n < 1000 && n <= x.maxStep
    ensures var q := ReadLine(x, p, Placed(n, k)); q.step == n + 1 && OnlySteps(p, q, [ProgramStep(n, k)])
  {
    hide ReadLine, ReadProgram, ParseProgLine, OnlySteps;
    var line := Placed(n, k);
    PlainLine(x, p, line);
    PlacedReads(n, k, x.maxStep);
    assert line[0] != '.';
    ProgramAdds(x, p, line, n, [k]);
    assert Numbered([k], n) == [ProgramStep(n, k)];
  }

  /** Steps added one after the other. */
  lemma AddedTwice(p: Parse, q: Parse, r: Parse, a: seq<ProgramStep>, b: seq<ProgramStep>)
    requires OnlySteps(p, q, a) && OnlySteps(q, r, b)
    ensures OnlySteps(p, r, a + b)
  {
    assert StepsHere(p) + a + b == StepsHere(p) + (a + b);
  }

  lemma NothingAdded(p: Parse)
    ensures OnlySteps(p, p, [])
  {
    assert StepsHere(p) + [] == StepsHere(p);
  }

  lemma StandOn(a: seq<ProgramStep>, b: seq<ProgramStep>, first: nat, c: seq<Keycode>, d: seq<Keycode>)
    requires StandFrom(a, first, c) && StandFrom(b, first + |c|, d)
    ensures StandFrom(a + b, first, c + d)
  {
  }

  /**
   A listing in a PROGRAM section, in a card's block, a reload stage or the initial load: its codes
   land at consecutive steps from where the program stands, in order, each once, and nothing else
   of the parse changes.
   */
  lemma {:induction false} ListingLands(x: Leaves, p: Parse, rows: seq<CodeRow>) returns (added: seq<ProgramStep>)
    requires p.section == InProgram
    ensures StandFrom(added, p.step, Joined(rows))
    ensures var q := ReadLines(x, p, Rows(rows)); q.step == p.step + |Joined(rows)| && OnlySteps(p, q, added)
    decreases |rows|
  {
    hide ReadLine, OnlySteps, StandFrom, Row, Numbered;
    if rows == [] {
      NothingAdded(p);
      added := [];
      assert StandFrom(added, p.step, Joined(rows)) by { NoneStand(p.step); }
    } else {
      var q := ReadLine(x, p, Row(rows[0]));
      RowLands(x, p, rows[0]);
      SameSection(p, q, Numbered(rows[0], p.step));
      var more := ListingLands(x, q, rows[1..]);
      assert Rows(rows)[1..] == Rows(rows[1..]);
      StandOn(Numbered(rows[0], p.step), more, p.step, rows[0], Joined(rows[1..]));
      AddedTwice(p, q, ReadLines(x, q, Rows(rows[1..])), Numbered(rows[0], p.step), more);
      added := Numbered(rows[0], p.step) + more;
    }
  }

  lemma NoneStand(first: nat)
    ensures StandFrom([], first, [])
  {
  }

  lemma SameSection(p: Parse, q: Parse, added: seq<ProgramStep>)
    requires OnlySteps(p, q, added)
    ensures q.section == p.section
  {
  }
}
