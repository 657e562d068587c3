/**
 Card files of version 2: what the writer prints the parser reads back, side by side, and what
 the parser accepts was complete. A cue card is carried as its lines; version 1 is a parameter.
 */
module CardText {
  import opened Words
  import opened TextUtil
  import opened Bcd
  import Utf8
  import Core

  const BANK_BYTES := Core.BANK_BYTES

  type BankBytes = s: seq<Byte> | |s| == BANK_BYTES witness seq(BANK_BYTES, _ => 0)
  type Sides = s: seq<Option<seq<Byte>>> | |s| == 2 witness [None, None]

  /** A card: version 2 has two sides, version 1 one; a side not written yet is None. */
  datatype Document = Document(version: nat, cue: Option<seq<string>>, sides: Sides, single: seq<Byte>)

  // ---------------------------------------------------------------- banks

  function PageByteOfBank(bank: int): Byte
    requires 1 <= bank <= 4
  {
    0x10 + (bank - 1) * 3
  }

  function BankOfPageByte(page: Byte): (bank: int)
    ensures 1 <= bank <= 6
  {
    page % 16 / 3 + 1
  }

  /** A bank image a header can describe: its data type, page, protection and checksum are the ones written. */
  predicate Canonical(data: seq<Byte>) {
    && |data| == BANK_BYTES && (data[1] == 0x10 || data[1] == 0x11) && data[2] in {0x10, 0x13, 0x16, 0x19}
    && (data[3] == 0x00 || data[3] == 0x10) && data[244] == data[245]
  }

  // ---------------------------------------------------------------- writing

  function ByteAt(data: seq<Byte>, i: nat, dflt: Byte): Byte {
    if i < |data| then data[i] else dflt
  }

  function Digit(d: int): char
    requires 0 <= d < 10
  {
    ('0' as int + d) as char
  }

  /** "R%03d:" */
  function RowLabel(n: int): (text: string)
    requires 0 <= n < 1000
    ensures |text| == 5
  {
    ['R', Digit(n / 100), Digit(n / 10 % 10), Digit(n % 10), ':']
  }

  /** The sixteen nibbles of a row's eight bank bytes, high nibble first. */
  function RowNibbles(bytes: Line): Nibbles16 {
    seq(16, i requires 0 <= i < 16 => if i % 2 == 0 then bytes[i / 2] / 16 else bytes[i / 2] % 16)
  }

  function RowBytes(data: seq<Byte>, row: nat): Line {
    var at := 4 + row * 8;
    [ByteAt(data, at, 0), ByteAt(data, at + 1, 0), ByteAt(data, at + 2, 0), ByteAt(data, at + 3, 0),
     ByteAt(data, at + 4, 0), ByteAt(data, at + 5, 0), ByteAt(data, at + 6, 0), ByteAt(data, at + 7, 0)]
  }

  function Backwards(b: Line): Line {
    seq(8, i requires 0 <= i < 8 => b[7 - i])
  }

  /** A row of DATA: its register line, the bytes reversed. */
  function RowLine(data: seq<Byte>, first: int, row: nat): string
    requires 0 <= first && first + row < 1000
  {
    RowLabel(first + row) + " " + Join(RowWords(data, row), ' ')
  }

  function RowLines(data: seq<Byte>, first: int, rows: nat): (lines: seq<string>)
    requires 0 <= first && first + rows <= 1000
    ensures |lines| == rows
  {
    if rows == 0 then [] else RowLines(data, first, rows - 1) + [RowLine(data, first, rows - 1)]
  }

  function FirstRegister(data: seq<Byte>): (n: int)
    ensures 0 <= n <= 150
  {
    (BankOfPageByte(ByteAt(data, 2, 0x10)) - 1) * 30
  }

  function HeaderLines(data: seq<Byte>): seq<string> {
    ["Partition: " + Hex2(ByteAt(data, 0, 0)),
     "DataType: " + (if ByteAt(data, 1, 0x11) == 0x11 then "program" else "data"),
     "Bank: " + [Digit(BankOfPageByte(ByteAt(data, 2, 0x10)))],
     "Protection: " + (if ByteAt(data, 3, 0) == 0x10 then "yes" else "no"),
     "Checksum: " + Hex2(ByteAt(data, 244, 0))]
  }

  /** One side's HEADER and DATA. */
  function SideLines(data: seq<Byte>): seq<string> {
    ["HEADER:"] + HeaderLines(data) + ["", "DATA:"] + RowLines(data, FirstRegister(data), 30)
  }

  method AppendSideLines(lines: seq<string>, data: seq<Byte>) returns (out: seq<string>)
    ensures out == lines + SideLines(data)
  {
    hide HeaderLines, RowLine;
    out := lines + ["HEADER:"] + HeaderLines(data) + ["", "DATA:"];
    var first := FirstRegister(data);
    ghost var head := out;
    var row := 0;
    while row < 30
      invariant row <= 30 && out == head + RowLines(data, first, row)
    {
      var line := WriteRow(data, first, row);
      RowAppended(head, data, first, row);
      out := out + [line];
      row := row + 1;
    }
    hide RowLines;
    SidePutTogether(lines, HeaderLines(data), RowLines(data, first, 30));
  }

  lemma RowAppended(head: seq<string>, data: seq<Byte>, first: int, row: nat)
    requires 0 <= first && first + row < 1000
    ensures head + RowLines(data, first, row + 1) == head + RowLines(data, first, row) + [RowLine(data, first, row)]
  {
    hide RowLine;
  }

  lemma SidePutTogether(lines: seq<string>, header: seq<string>, rows: seq<string>)
    ensures lines + ["HEADER:"] + header + ["", "DATA:"] + rows == lines + (["HEADER:"] + header + ["", "DATA:"] + rows)
  {
  }

  /** One row, word by word from the register line's last byte to its first. */
  method WriteRow(data: seq<Byte>, first: int, row: nat) returns (line: string)
    requires 0 <= first && first + row < 1000
    ensures line == RowLine(data, first, row)
  {
    hide RowLabel, EncodeRegisterLine, Hex2, RowLine, RowBytes, RowNibbles, Backwards;
    var nibbles := RowNibbles(RowBytes(data, row));
    var enc := EncodeLine(nibbles);
    ghost var words := RowWords(data, row);
    line := RowLabel(first + row);
    var i := 8;
    while i > 0
      invariant 0 <= i <= 8 && enc[..] == EncodeRegisterLine(nibbles)
      invariant line == RowLabel(first + row) + Spaced(words[..8 - i])
    {
      i := i - 1;
      assert words[..8 - i][..7 - i] == words[..7 - i];
      RowWordIs(data, row, 7 - i);
      assert enc[i] == enc[..][i];
      line := line + " " + Hex2(enc[i]);
    }
    RowLineIs(data, first, row);
  }

  /** A row's words, as printed. */
  function RowWords(data: seq<Byte>, row: nat): (words: seq<string>)
    ensures |words| == 8
  {
    HexWords(Backwards(EncodeRegisterLine(RowNibbles(RowBytes(data, row)))))
  }

  lemma RowWordIs(data: seq<Byte>, row: nat, k: nat)
    requires k < 8
    ensures RowWords(data, row)[k] == Hex2(EncodeRegisterLine(RowNibbles(RowBytes(data, row)))[7 - k])
  {
    hide Hex2, EncodeRegisterLine, RowNibbles, RowBytes;
  }

  lemma RowLineIs(data: seq<Byte>, first: int, row: nat)
    requires 0 <= first && first + row < 1000
    ensures RowLine(data, first, row) == RowLabel(first + row) + Spaced(RowWords(data, row)[..8])
  {
    hide RowLabel, EncodeRegisterLine, Hex2, RowBytes, RowNibbles, Backwards;
    SpacedIsJoined(RowWords(data, row));
  }

  /** Words each after a space. */
  function Spaced(words: seq<string>): string {
    if words == [] then "" else Spaced(words[..|words| - 1]) + " " + words[|words| - 1]
  }

  lemma {:induction false} SpacedGrows(word: string, words: seq<string>)
    ensures Spaced([word] + words) == " " + word + Spaced(words)
    decreases |words|
  {
    if words == [] {
      assert [word] + words == [word];
      assert [word][..0] == [];
    } else {
      SpacedGrows(word, words[..|words| - 1]);
      assert ([word] + words)[..|words|] == [word] + words[..|words| - 1];
    }
  }

  lemma {:induction false} SpacedIsJoined(words: seq<string>)
    requires words != []
    ensures words[..|words|] == words && Spaced(words) == " " + Join(words, ' ')
    decreases |words|
  {
    SpacedGrows(words[0], words[1..]);
    assert words == [words[0]] + words[1..];
    if |words| == 1 {
      assert words[1..] == [];
    } else {
      SpacedIsJoined(words[1..]);
    }
  }

  function SidePart(i: nat, side: Option<seq<Byte>>): seq<string>
    requires i < 2
  {
    if side.None? then [] else ["", "SIDE: " + [Digit(i + 1)]] + SideLines(side.value)
  }

  /** A version 2 card's text, line by line. */
  function DocumentLines(doc: Document): seq<string> {
    ["Calc-U-59 Card 2.0"] + (if doc.cue.Some? then ["", "CUECARD:"] + doc.cue.value else [])
    + SidePart(0, doc.sides[0]) + SidePart(1, doc.sides[1]) + ["", "END-CARD"]
  }

  function EncodeDocument(doc: Document): string { Join(DocumentLines(doc), '\n') }

  method WriteDocument(doc: Document) returns (text: string)
    ensures text == EncodeDocument(doc)
  {
    hide SideLines, Join;
    var lines := ["Calc-U-59 Card 2.0"];
    if doc.cue.Some? {
      lines := lines + ["", "CUECARD:"] + doc.cue.value;
    }
    ghost var head := lines;
    var i := 0;
    while i < 2
      invariant i <= 2
      invariant lines == head + (if i > 0 then SidePart(0, doc.sides[0]) else []) + (if i > 1 then SidePart(1, doc.sides[1]) else [])
    {
      if doc.sides[i].Some? {
        lines := AppendSideLines(lines + ["", "SIDE: " + [Digit(i + 1)]], doc.sides[i].value);
      }
      i := i + 1;
    }
    assert lines + ["", "END-CARD"] == DocumentLines(doc);
    text := Join(lines + ["", "END-CARD"], '\n');
  }

  // ---------------------------------------------------------------- reading one side

  /** A side being read: which header fields were given, its bytes so far, its rows. */
  datatype Builder = Builder(
    partition: bool, dataType: bool, bank: bool, protection: bool, checksum: bool, data: BankBytes, rows: nat)

  function NewBuilder(): Builder {
    Builder(false, false, false, false, false, seq(BANK_BYTES, _ => 0), 0)
  }

  predicate Complete(b: Builder) {
    b.partition && b.dataType && b.bank && b.protection && b.checksum && b.rows == 30
  }

  function AsByte(v: Option<nat>): Option<Byte> {
    if v.Some? && v.value <= 0xFF then Some(v.value) else None
  }

  function BankNumber(v: Option<int>): Option<int> {
    if v.Some? && 1 <= v.value <= 4 then v else None
  }

  function HeaderKey(line: string): string { ToLower(Trim(line[..Find(line, {':'})])) }

  function HeaderValue(line: string): string
    requires Find(line, {':'}) < |line|
  {
    ToLower(Trim(line[Find(line, {':'}) + 1..]))
  }

  function WithField(b: Builder, key: string, val: string): Option<Builder> {
    if key == "partition" then
      match AsByte(ParseHex(val))
      case None => None
      case Some(v) => Some(b.(data := b.data[0 := v], partition := true))
    else if key == "datatype" then
      if val != "program" && val != "data" then None
      else Some(b.(data := b.data[1 := if val == "program" then 0x11 else 0x10], dataType := true))
    else if key == "bank" then
      match BankNumber(ParseDec(val))
      case None => None
      case Some(n) => if 1 <= n <= 4 then Some(b.(data := b.data[2 := PageByteOfBank(n)], bank := true)) else None
    else if key == "protection" then
      if val != "yes" && val != "no" then None
      else Some(b.(data := b.data[3 := if val == "yes" then 0x10 else 0x00], protection := true))
    else if key == "checksum" then
      match AsByte(ParseHex(val))
      case None => None
      case Some(v) => Some(b.(data := b.data[244 := v][245 := v], checksum := true))
    else None
  }

  function HeaderLine(b: Builder, line: string): Option<Builder> {
    if Find(line, {':'}) == |line| then None else WithField(b, HeaderKey(line), HeaderValue(line))
  }

  /** The bytes of a register line, reversed and unpacked into the row's bank bytes. */
  function RowFromFile(file: Line): Line {
    var n := DecodeRegisterLine(Backwards(file));
    seq(8, i requires 0 <= i < 8 => Pair(n[2 * i], n[2 * i + 1]))
  }

  /** "R###: …": the label is for the reader only. */
  function DecodeCardRow(line: string): Option<Line>
    requires line != ""
  {
    var colon := Find(line, {':'});
    if line[0] != 'R' || colon == |line| then None
    else
      match ParseRegisterLineHex(Trim(line[colon + 1..]))
      case None => None
      case Some(file) => Some(RowFromFile(file))
  }

  function Overlaid(data: BankBytes, at: nat, bytes: Line): BankBytes
    requires at + 8 <= BANK_BYTES
  {
    data[..at] + bytes + data[at + 8..]
  }

  function DataLine(b: Builder, line: string): Option<Builder>
    requires line != ""
  {
    if b.rows >= 30 then None
    else
      match DecodeCardRow(line)
      case None => None
      case Some(bytes) => Some(b.(data := Overlaid(b.data, 4 + b.rows * 8, bytes), rows := b.rows + 1))
  }

  // ---------------------------------------------------------------- reading the file

  datatype Section = Nowhere | InCue | InSide | InHeader | InData

  datatype Parse = Parse(
    section: Section, sides: Sides, cue: Option<seq<string>>, side: Option<Builder>, index: nat, ended: bool)

  predicate ParseOk(p: Parse) {
    p.index < 2 && (p.section == InSide || p.section == InHeader || p.section == InData ==> p.side.Some?)
  }

  type State = p: Parse | ParseOk(p) witness Parse(Nowhere, [None, None], None, None, 0, false)

  function Beginning(): State { Parse(Nowhere, [None, None], None, None, 0, false) }

  /** The side in progress goes into the card, if it is complete. */
  function FinishSide(p: State): Option<State> {
    match p.side
    case None => Some(p)
    case Some(b) =>
      if Complete(b) then Some(p.(sides := p.sides[p.index := Some(b.data)], side := None, section := Nowhere)) else None
  }

  function Closed(p: State): State { p.(ended := true) }

  function BeginSide(p: State, line: string): Option<State>
    requires |line| >= 5
  {
    match ParseDec(Trim(line[5..]))
    case None => None
    case Some(n) =>
      if n == 1 && p.sides[0].None? then Some(p.(index := 0, side := Some(NewBuilder()), section := InSide))
      else if n == 2 && p.sides[1].None? then Some(p.(index := 1, side := Some(NewBuilder()), section := InSide))
      else None
  }

  function Content(p: State, line: string): Option<State>
    requires line != ""
  {
    match p.section
    case InCue => Some(p.(cue := if p.cue.Some? then Some(p.cue.value + [line]) else Some([line])))
    case InHeader =>
      (match HeaderLine(p.side.value, line)
       case None => None
       case Some(b) => Some(p.(side := Some(b))))
    case InData =>
      (match DataLine(p.side.value, line)
       case None => None
       case Some(b) => Some(p.(side := Some(b))))
    case _ => None
  }

  /** One line of the file; None refuses it. */
  function ReadLine(p: State, raw: string): Option<State> {
    var line := StripInlineComment(raw);
    if p.ended || line == "" then Some(p) else Dispatch(p, line, ToUpper(line))
  }

  function Dispatch(p: State, line: string, upper: string): Option<State>
    requires |upper| == |line| > 0
  {
    if upper == "END-CARD" then
      match FinishSide(p)
      case None => None
      case Some(q) => Some(Closed(q))
    else if upper == "CUECARD:" then
      if p.side.Some? || p.cue.Some? then None else Some(p.(section := InCue, cue := Some([])))
    else if StartsWith(upper, "SIDE:") then
      match FinishSide(p)
      case None => None
      case Some(q) => BeginSide(q, line)
    else if upper == "HEADER:" then
      if p.section != InSide then None else Some(p.(section := InHeader))
    else if upper == "DATA:" then
      if p.section != InHeader then None else Some(p.(section := InData))
    else Content(p, line)
  }

  function ReadLines(p: State, lines: seq<string>): Option<State>
    decreases |lines|
  {
    if lines == [] then Some(p)
    else
      match ReadLine(p, lines[0])
      case None => None
      case Some(q) => ReadLines(q, lines[1..])
  }

  /** The lines after the magic one. Refuses anything incomplete rather than blanking a side. */
  function ParseV2(lines: seq<string>): Option<Document> {
    match ReadLines(Beginning(), lines)
    case None => None
    case Some(p) => if p.ended then Some(Document(2, p.cue, p.sides, [])) else None
  }

  lemma {:induction false} EndedReadsNothing(p: State, lines: seq<string>)
    requires p.ended
    ensures ReadLines(p, lines) == Some(p)
    decreases |lines|
  {
    hide StripInlineComment, ToUpper;
    if lines != [] {
      EndedReadsNothing(p, lines[1..]);
    }
  }

  lemma {:induction false} ReadAppend(p: State, a: seq<string>, b: seq<string>)
    ensures ReadLines(p, a + b) ==
            match ReadLines(p, a)
            case None => None
            case Some(q) => ReadLines(q, b)
    decreases |a|
  {
    hide ReadLine;
    if a == [] {
      assert a + b == b;
    } else {
      assert (a + b)[1..] == a[1..] + b && (a + b)[0] == a[0];
      match ReadLine(p, a[0])
      case None =>
      case Some(q) => ReadAppend(q, a[1..], b);
    }
  }

  method ReadDocument(lines: seq<string>) returns (doc: Option<Document>)
    requires lines != []
    ensures doc == ParseV2(lines[1..])
  {
    hide ReadLine;
    var p := Beginning();
    var li := 1;
    while li < |lines| && !p.ended
      invariant 1 <= li <= |lines| && ReadLines(Beginning(), lines[1..]) == ReadLines(p, lines[li..])
    {
      assert lines[li..][1..] == lines[li + 1..];
      match ReadLine(p, lines[li])
      case None => return None;
      case Some(q) => p := q;
      li := li + 1;
    }
    if p.ended {
      EndedReadsNothing(p, lines[li..]);
    }
    doc := if p.ended then Some(Document(2, p.cue, p.sides, [])) else None;
  }

  // ---------------------------------------------------------------- lines the writer prints

  /** ASCII, without a comment or a line break, no space at either end. */
  ghost predicate Clean(line: string) {
    && line != "" && Ascii(line) && Free(line, {'#'}) && Free(line, NEWLINES)
    && !IsSpace(line[0]) && !IsSpace(line[|line| - 1])
  }

  lemma CleanStrips(line: string)
    requires Clean(line)
    ensures StripInlineComment(line) == line && line != ""
  {
    NothingToStrip(line);
  }

  lemma BlankLine(p: State)
    ensures ReadLine(p, "") == Some(p)
  {
    NothingToStrip("");
    hide StripInlineComment;
  }

  lemma UpperWord(word: string)
    requires forall i :: 0 <= i < |word| ==> Upper(word[i]) == word[i]
    ensures ToUpper(word) == word
  {
  }

  /** A keyword's line is read as it stands. */
  lemma Keyword(p: State, word: string)
    requires !p.ended && Clean(word) && forall i :: 0 <= i < |word| ==> Upper(word[i]) == word[i]
    ensures ReadLine(p, word) == Dispatch(p, word, word)
  {
    CleanStrips(word);
    UpperWord(word);
    hide StripInlineComment, Dispatch, Clean, ToUpper;
  }

  lemma NotSide(w: string)
    requires w != "" && w[0] != 'S'
    ensures !StartsWith(w, "SIDE:")
  {
    if StartsWith(w, "SIDE:") {
      SideStarts(w);
    }
  }

  lemma SideStarts(w: string)
    requires StartsWith(w, "SIDE:")
    ensures w != "" && w[0] == 'S'
  {
    assert w[..5][0] == w[0];
  }

  lemma EndLine(p: State)
    requires !p.ended && FinishSide(p).Some?
    ensures ReadLine(p, "END-CARD") == Some(Closed(FinishSide(p).value))
  {
    Keyword(p, "END-CARD");
    hide ReadLine, FinishSide, Clean;
  }

  lemma HeaderMark(p: State)
    requires !p.ended && p.section == InSide
    ensures ReadLine(p, "HEADER:") == Some(p.(section := InHeader))
  {
    Keyword(p, "HEADER:");
    NotSide("HEADER:");
    hide ReadLine, FinishSide, Clean, StartsWith, Content;
  }

  lemma DataMark(p: State)
    requires !p.ended && p.section == InHeader
    ensures ReadLine(p, "DATA:") == Some(p.(section := InData))
  {
    Keyword(p, "DATA:");
    NotSide("DATA:");
    hide ReadLine, FinishSide, Clean, StartsWith, Content;
  }

  function SideMarkLine(i: nat): string
    requires i < 2
  {
    "SIDE: " + [Digit(i + 1)]
  }

  lemma SideNumber(i: nat)
    requires i < 2
    ensures var line := SideMarkLine(i);
            && StripInlineComment(line) == line && |line| == 7 && ToUpper(line) == line && line[..5] == "SIDE:"
            && ParseDec(Trim(line[5..])) == Some(i + 1)
  {
    hide ParseDec, Trim, StripInlineComment, ToUpper;
    var line := SideMarkLine(i);
    var d := [Digit(i + 1)];
    assert line[5..] == " " + d && line[..5] == "SIDE:";
    CleanStrips(line);
    UpperWord(line);
    TrimLeading(d);
    OneDigitParses(i + 1);
  }

  /** A new side begins once the one before it is complete. */
  lemma SideMark(p: State, i: nat)
    requires !p.ended && i < 2 && FinishSide(p).Some? && FinishSide(p).value.sides[i].None?
    ensures ReadLine(p, SideMarkLine(i)) ==
            Some(FinishSide(p).value.(index := i, side := Some(NewBuilder()), section := InSide))
  {
    var line := SideMarkLine(i);
    SideNumber(i);
    SideLineDispatch(FinishSide(p).value, p, line);
    hide StripInlineComment, Dispatch, FinishSide, NewBuilder, ParseDec, Trim, SideMarkLine, ToUpper;
  }

  lemma SideLineDispatch(q: State, p: State, line: string)
    requires |line| == 7 && line[..5] == "SIDE:" && FinishSide(p) == Some(q)
    ensures Dispatch(p, line, line) == BeginSide(q, line)
  {
    assert line[0] == line[..5][0] == 'S';
    hide FinishSide, BeginSide, Content;
  }

  /** A line that begins no section. */
  predicate IsContent(line: string) {
    |line| > 0 && (line[0] == 'P' || line[0] == 'B' || line[0] == 'R' || (|line| >= 9 && line[0] != 'S' && line[0] != 's'))
  }

  lemma ContentLine(p: State, line: string)
    requires !p.ended && Clean(line) && IsContent(line)
    ensures ReadLine(p, line) == Content(p, line)
  {
    CleanStrips(line);
    ContentDispatch(p, line, ToUpper(line));
    hide StripInlineComment, Dispatch, Content, Clean, ToUpper, IsContent;
  }

  lemma ContentDispatch(p: State, line: string, upper: string)
    requires IsContent(line) && |upper| == |line| && upper[0] == Upper(line[0])
    ensures Dispatch(p, line, upper) == Content(p, line)
  {
    hide FinishSide, Content;
    assert upper[0] != 'S';
    NotSide(upper);
    hide StartsWith;
    if |upper| < 9 {
      assert upper[0] == 'P' || upper[0] == 'B' || upper[0] == 'R';
    }
  }

  lemma KeyAndValue(key: string, val: string)
    requires Clean(key) && Clean(val) && Free(key, {':'})
    ensures var line := key + ": " + val;
            && Clean(line) && Find(line, {':'}) == |key| < |line|
            && HeaderKey(line) == ToLower(key) && HeaderValue(line) == ToLower(val) && Trim(line[|key| + 1..]) == val
  {
    var line := key + ": " + val;
    assert line == key + (": " + val);
    assert Find(": " + val, {':'}) == 0;
    hide Clean, Trim, ToLower, Find;
    FindAfter(key, ": " + val, {':'});
    assert line[..|key|] == key && line[|key| + 1..] == " " + val;
    CleanJoins(key, val);
    TrimClean(key);
    TrimClean(val);
  }

  lemma TrimClean(s: string)
    requires Clean(s)
    ensures Trim(s) == s && Trim(" " + s) == s
  {
    TrimKeeps(s);
    TrimLeading(s);
  }

  lemma CleanJoins(key: string, val: string)
    requires Clean(key) && Clean(val)
    ensures Clean(key + ": " + val)
  {
  }

  /** A header line sets its field. */
  lemma FieldLine(p: State, key: string, val: string, low: string, b: Builder)
    requires !p.ended && p.section == InHeader && Clean(key) && Clean(val) && Free(key, {':'}) && ToLower(key) == low
    requires IsContent(key + ": " + val) && WithField(p.side.value, low, ToLower(val)) == Some(b)
    ensures ReadLine(p, key + ": " + val) == Some(p.(side := Some(b)))
  {
    KeyAndValue(key, val);
    ContentLine(p, key + ": " + val);
    hide ReadLine, WithField, HeaderKey, HeaderValue, Clean, Find, ToLower;
  }

  // ---------------------------------------------------------------- one side comes back

  /** The builder with a header's first fields. */
  function Fields(data: BankBytes, n: nat): Builder {
    Builder(n > 0, n > 1, n > 2, n > 3, n > 4,
            ImageFields(data, n), 0)
  }

  function ImageFields(data: BankBytes, n: nat): BankBytes {
    var z: BankBytes := seq(BANK_BYTES, _ => 0);
    var a: BankBytes := if n > 0 then z[0 := data[0]] else z;
    var b: BankBytes := if n > 1 then a[1 := data[1]] else a;
    var c: BankBytes := if n > 2 then b[2 := data[2]] else b;
    var d: BankBytes := if n > 3 then c[3 := data[3]] else c;
    if n > 4 then d[244 := data[244]][245 := data[244]] else d
  }

  lemma CleanHex(v: Byte)
    ensures Clean(Hex2(v))
  {
    HexCharIs(v / 16);
    HexCharIs(v % 16);
  }

  lemma PartitionField(data: BankBytes)
    requires Canonical(data)
    ensures WithField(Fields(data, 0), "partition", ToLower(Hex2(data[0]))) == Some(Fields(data, 1))
  {
    Hex2Parses(data[0]);
    hide ParseHex, Hex2, ToLower;
  }

  lemma DataTypeField(data: BankBytes)
    requires Canonical(data)
    ensures WithField(Fields(data, 1), "datatype", if data[1] == 0x11 then "program" else "data") == Some(Fields(data, 2))
  {
  }

  lemma BankField(data: BankBytes)
    requires Canonical(data)
    ensures WithField(Fields(data, 2), "bank", [Digit(BankOfPageByte(data[2]))]) == Some(Fields(data, 3))
  {
    var d := [Digit(BankOfPageByte(data[2]))];
    OneDigitParses(BankOfPageByte(data[2]));
    hide ParseDec;
  }

  lemma OneDigitParses(n: int)
    requires 0 <= n < 10
    ensures ParseDec([Digit(n)]) == Some(n)
  {
    var d := [Digit(n)];
    assert d[..0] == "";
    assert Times(0, 10) == 0;
    assert Value(DecDigit, 10, d) == Some(Times(0, 10) + DecDigit(d[0]));
  }

  lemma ProtectionField(data: BankBytes)
    requires Canonical(data)
    ensures WithField(Fields(data, 3), "protection", if data[3] == 0x10 then "yes" else "no") == Some(Fields(data, 4))
  {
  }

  lemma ChecksumField(data: BankBytes)
    requires Canonical(data)
    ensures WithField(Fields(data, 4), "checksum", ToLower(Hex2(data[244]))) == Some(Fields(data, 5))
  {
    Hex2Parses(data[244]);
    hide ParseHex, Hex2, ToLower;
  }

  /** The key, its value and the key in lower case of each header line. */
  function Field(data: BankBytes, n: nat): (string, string, string)
    requires n < 5
  {
    if n == 0 then ("Partition", Hex2(data[0]), "partition")
    else if n == 1 then ("DataType", if data[1] == 0x11 then "program" else "data", "datatype")
    else if n == 2 then ("Bank", [Digit(BankOfPageByte(data[2]))], "bank")
    else if n == 3 then ("Protection", if data[3] == 0x10 then "yes" else "no", "protection")
    else ("Checksum", Hex2(data[244]), "checksum")
  }

  lemma HeaderLineIs(data: BankBytes, n: nat)
    requires n < 5
    ensures var f := Field(data, n);
            |HeaderLines(data)| == 5 && HeaderLines(data)[n] == f.0 + ": " + f.1
  {
    hide Hex2, Digit, BankOfPageByte;
    var f := Field(data, n);
    assert f.0 + ": " + f.1 == f.0 + (": " + f.1);
    if n == 0 {
      assert "Partition" + ": " == "Partition: ";
    } else if n == 1 {
      assert "DataType" + ": " == "DataType: ";
    } else if n == 2 {
      assert "Bank" + ": " == "Bank: ";
    } else if n == 3 {
      assert "Protection" + ": " == "Protection: ";
    } else {
      assert "Checksum" + ": " == "Checksum: ";
    }
  }

  lemma FieldIsClean(data: BankBytes, n: nat)
    requires n < 5
    ensures var f := Field(data, n);
            && Clean(f.0) && Clean(f.1) && Free(f.0, {':'}) && ToLower(f.0) == f.2
            && IsContent(f.0 + ": " + f.1)
  {
    hide Hex2, Clean, ToLower, Digit, BankOfPageByte;
    var f := Field(data, n);
    CleanHex(data[0]);
    CleanHex(data[244]);
    CleanDigit(BankOfPageByte(data[2]));
    KeyWord("Partition", "partition");
    KeyWord("DataType", "datatype");
    KeyWord("Bank", "bank");
    KeyWord("Protection", "protection");
    KeyWord("Checksum", "checksum");
    KeyWord("program", "program");
    KeyWord("data", "data");
    KeyWord("yes", "yes");
    KeyWord("no", "no");
    assert (f.0 + ": " + f.1)[0] == f.0[0];
  }

  predicate IsLetter(c: char) { 'a' <= c <= 'z' || 'A' <= c <= 'Z' }

  lemma KeyWord(word: string, low: string)
    requires |word| == |low| > 0 && forall i :: 0 <= i < |word| ==> IsLetter(word[i]) && Lower(word[i]) == low[i]
    ensures Clean(word) && Free(word, {':'}) && ToLower(word) == low
  {
  }

  lemma CleanDigit(n: int)
    requires 0 <= n < 10
    ensures Clean([Digit(n)])
  {
  }

  lemma FieldIsSet(data: BankBytes, n: nat)
    requires n < 5 && Canonical(data)
    ensures WithField(Fields(data, n), Field(data, n).2, ToLower(Field(data, n).1)) == Some(Fields(data, n + 1))
  {
    LowerWord(Field(data, 1).1);
    LowerWord(Field(data, 2).1);
    LowerWord(Field(data, 3).1);
    PartitionField(data);
    DataTypeField(data);
    BankField(data);
    ProtectionField(data);
    ChecksumField(data);
    hide WithField, Fields, ToLower, Hex2, Digit;
  }

  lemma LowerWord(word: string)
    requires forall i :: 0 <= i < |word| ==> Lower(word[i]) == word[i]
    ensures ToLower(word) == word
  {
  }

  /** The parse with header fields 0..n read. */
  function AtField(p: State, data: BankBytes, n: nat): State
    requires p.section == InHeader && p.side.Some?
  {
    p.(side := Some(Fields(data, n)))
  }

  lemma {:induction false} FieldsRead(p: State, data: BankBytes, n: nat)
    requires n <= 5 && Canonical(data) && !p.ended && p.section == InHeader
    ensures |HeaderLines(data)| == 5
    ensures ReadLines(AtField(p, data, 0), HeaderLines(data)[..n]) == Some(AtField(p, data, n))
    decreases n
  {
    hide ReadLine, Fields, Canonical;
    assert |HeaderLines(data)| == 5;
    if n > 0 {
      FieldsRead(p, data, n - 1);
      var f := Field(data, n - 1);
      HeaderLineIs(data, n - 1);
      FieldIsClean(data, n - 1);
      FieldIsSet(data, n - 1);
      FieldLine(AtField(p, data, n - 1), f.0, f.1, f.2, Fields(data, n));
      hide HeaderLines, Field, Clean, IsContent, WithField;
      assert HeaderLines(data)[..n] == HeaderLines(data)[..n - 1] + [HeaderLines(data)[n - 1]];
      ReadAppend(AtField(p, data, 0), HeaderLines(data)[..n - 1], [HeaderLines(data)[n - 1]]);
      OneLine(AtField(p, data, n - 1), HeaderLines(data)[n - 1]);
    }
  }

  lemma OneLine(p: State, line: string)
    ensures ReadLines(p, [line]) == ReadLine(p, line)
  {
    hide ReadLine;
    assert [line][1..] == [];
    match ReadLine(p, line)
    case None =>
    case Some(q) => assert ReadLines(q, []) == Some(q);
  }

  // ---------------------------------------------------------------- rows

  lemma {:induction false} WordsAreClean(words: seq<string>)
    requires words != [] && forall i :: 0 <= i < |words| ==> Clean(words[i])
    ensures Clean(Join(words, ' '))
    decreases |words|
  {
    if |words| > 1 {
      WordsAreClean(words[1..]);
      CleanWithSpace(words[0], Join(words[1..], ' '));
    }
  }

  lemma CleanWithSpace(a: string, b: string)
    requires Clean(a) && Clean(b)
    ensures Clean(a + [' '] + b)
  {
  }

  lemma LabelIs(n: int)
    requires 0 <= n < 1000
    ensures var key := RowLabel(n)[..4];
            Clean(key) && Free(key, {':'}) && key[0] == 'R' && RowLabel(n) == key + ":"
  {
  }

  lemma RowUnpacks(bytes: Line)
    ensures RowFromFile(Backwards(EncodeRegisterLine(RowNibbles(bytes)))) == bytes
  {
    hide EncodeRegisterLine, DecodeRegisterLine, RowNibbles, Backwards;
    var nibbles := RowNibbles(bytes);
    var enc := EncodeRegisterLine(nibbles);
    BackAndForth(enc);
    LinesInvert(nibbles, enc);
    RowPairs(bytes);
    assert RowFromFile(Backwards(enc)) == bytes;
  }

  lemma BackAndForth(b: Line)
    ensures Backwards(Backwards(b)) == b
  {
  }

  lemma RowPairs(bytes: Line)
    ensures forall i :: 0 <= i < 8 ==> Pair(RowNibbles(bytes)[2 * i], RowNibbles(bytes)[2 * i + 1]) == bytes[i]
  {
    forall i | 0 <= i < 8 ensures Pair(RowNibbles(bytes)[2 * i], RowNibbles(bytes)[2 * i + 1]) == bytes[i] {
      assert RowNibbles(bytes)[2 * i] == bytes[i] / 16 && RowNibbles(bytes)[2 * i + 1] == bytes[i] % 16;
    }
  }

  /** A row's line, as key and value. */
  lemma RowLineParts(data: seq<Byte>, first: int, row: nat)
    requires 0 <= first && first + row < 1000
    ensures var line := RowLine(data, first, row);
            var val := Join(RowWords(data, row), ' ');
            && Clean(line) && line[0] == 'R' && |line| >= 9 && Find(line, {':'}) == 4 && Trim(line[5..]) == val
            && ParseRegisterLineHex(val) == Some(Backwards(EncodeRegisterLine(RowNibbles(RowBytes(data, row)))))
  {
    hide Backwards, EncodeRegisterLine, RowNibbles, RowBytes, RowLabel, Clean, Find, Trim, Hex2, ParseRegisterLineHex, RowLine, Join;
    var file := Backwards(EncodeRegisterLine(RowNibbles(RowBytes(data, row))));
    var val := Join(RowWords(data, row), ' ');
    var key := RowLabel(first + row)[..4];
    LabelIs(first + row);
    RowWordsClean(data, row);
    HexLineParses(file);
    KeyAndValue(key, val);
    RowLineSplit(data, first, row);
  }

  lemma RowLineSplit(data: seq<Byte>, first: int, row: nat)
    requires 0 <= first && first + row < 1000
    ensures var key := RowLabel(first + row)[..4];
            RowLine(data, first, row) == key + ": " + Join(RowWords(data, row), ' ')
  {
    LabelIs(first + row);
    hide RowLabel, Join, RowWords, Clean;
    assert ":" + " " == ": ";
  }

  lemma RowWordsClean(data: seq<Byte>, row: nat)
    ensures Clean(Join(RowWords(data, row), ' ')) && |Join(RowWords(data, row), ' ')| >= 5
  {
    hide Backwards, EncodeRegisterLine, RowNibbles, RowBytes, Clean;
    var file := Backwards(EncodeRegisterLine(RowNibbles(RowBytes(data, row))));
    forall i | 0 <= i < 8 ensures Clean(RowWords(data, row)[i]) {
      CleanHex(file[i]);
    }
    WordsAreClean(RowWords(data, row));
    LongWords(RowWords(data, row));
  }

  lemma LongWords(words: seq<string>)
    requires |words| == 8 && forall i :: 0 <= i < 8 ==> |words[i]| == 2
    ensures |Join(words, ' ')| >= 5
  {
    assert Join(words, ' ') == words[0] + [' '] + Join(words[1..], ' ');
    assert Join(words[1..], ' ') == words[1..][0] + [' '] + Join(words[1..][1..], ' ');
  }

  function RowRead(b: Builder, data: BankBytes): Builder
    requires b.rows < 30
  {
    b.(data := Overlaid(b.data, 4 + b.rows * 8, RowBytes(data, b.rows)), rows := b.rows + 1)
  }

  lemma RowIsRead(p: State, data: BankBytes, first: int)
    requires 0 <= first <= 150 && !p.ended && p.section == InData && p.side.value.rows < 30
    ensures ReadLine(p, RowLine(data, first, p.side.value.rows)) == Some(p.(side := Some(RowRead(p.side.value, data))))
  {
    var row := p.side.value.rows;
    var line := RowLine(data, first, row);
    RowLineParts(data, first, row);
    RowUnpacks(RowBytes(data, row));
    hide RowLine, RowBytes, RowNibbles, Backwards, EncodeRegisterLine, Clean, Find, Trim, RowFromFile, ReadLine, Overlaid;
    ContentLine(p, line);
  }

  /** `k` rows of a side are in the builder, the rest of its image is the header's. */
  function AtRow(p: State, data: BankBytes, k: nat): State
    requires p.side.Some? && p.section == InData && k <= 30
  {
    p.(side := Some(RowsRead(data, k)))
  }

  function RowsRead(data: BankBytes, k: nat): (b: Builder)
    requires k <= 30
    ensures b.rows == k
  {
    if k == 0 then Fields(data, 5) else RowRead(RowsRead(data, k - 1), data)
  }

  lemma {:induction false} RowsAreRead(p: State, data: BankBytes, first: int, k: nat)
    requires k <= 30 && 0 <= first <= 150 && !p.ended && p.section == InData
    ensures ReadLines(AtRow(p, data, 0), RowLines(data, first, k)) == Some(AtRow(p, data, k))
    decreases k
  {
    hide ReadLine, RowLine, RowRead, Fields;
    if k > 0 {
      RowsAreRead(p, data, first, k - 1);
      RowIsRead(AtRow(p, data, k - 1), data, first);
      ReadAppend(AtRow(p, data, 0), RowLines(data, first, k - 1), [RowLine(data, first, k - 1)]);
      OneLine(AtRow(p, data, k - 1), RowLine(data, first, k - 1));
    }
  }

  /** `k` rows hold the data's bytes, and around them the header's image is untouched. */
  ghost predicate FilledTo(d: BankBytes, data: BankBytes, k: nat) {
    forall j :: 0 <= j < BANK_BYTES ==> d[j] == if 4 <= j < 4 + 8 * k then data[j] else ImageFields(data, 5)[j]
  }

  lemma OverlayFills(d: BankBytes, data: BankBytes, k: nat, bytes: Line)
    requires k < 30 && FilledTo(d, data, k) && forall i :: 0 <= i < 8 ==> bytes[i] == data[4 + k * 8 + i]
    ensures FilledTo(Overlaid(d, 4 + k * 8, bytes), data, k + 1)
  {
    hide ImageFields;
    var e := Overlaid(d, 4 + k * 8, bytes);
    forall j | 0 <= j < BANK_BYTES
      ensures e[j] == if 4 <= j < 4 + 8 * (k + 1) then data[j] else ImageFields(data, 5)[j]
    {
      var i := j - (4 + k * 8);
      if 0 <= i < 8 {
        assert e[j] == bytes[i] == data[4 + k * 8 + i];
      } else {
        assert e[j] == d[j];
      }
    }
  }

  /** Thirty rows on top of the header are the whole image. */
  lemma {:induction false} RowsFill(data: BankBytes, k: nat)
    requires k <= 30
    ensures FilledTo(RowsRead(data, k).data, data, k)
    decreases k
  {
    hide ImageFields, RowBytes, Overlaid, FilledTo;
    if k > 0 {
      RowsFill(data, k - 1);
      RowBytesAre(data, k - 1);
      OverlayFills(RowsRead(data, k - 1).data, data, k - 1, RowBytes(data, k - 1));
    } else {
      NothingFilled(data);
    }
  }

  lemma NothingFilled(data: BankBytes)
    ensures FilledTo(Fields(data, 5).data, data, 0)
  {
    hide ImageFields;
  }

  lemma RowBytesAre(data: BankBytes, row: nat)
    requires row < 30
    ensures forall i :: 0 <= i < 8 ==> RowBytes(data, row)[i] == data[4 + row * 8 + i]
  {
  }

  lemma WholeImage(data: BankBytes)
    requires Canonical(data)
    ensures var b := RowsRead(data, 30); b.data == data && Complete(b)
  {
    RowsFill(data, 30);
    FlagsStay(data, 30);
    hide RowsRead;
  }

  lemma {:induction false} FlagsStay(data: BankBytes, k: nat)
    requires k <= 30
    ensures var b := RowsRead(data, k); b.partition && b.dataType && b.bank && b.protection && b.checksum
    decreases k
  {
    hide Overlaid, RowBytes, ImageFields;
    if k > 0 {
      FlagsStay(data, k - 1);
    }
  }

  lemma SideLinesRead(p: State, data: BankBytes)
    requires Canonical(data) && !p.ended && p.section == InSide && p.side == Some(NewBuilder())
    ensures ReadLines(p, SideLines(data)) == Some(p.(side := Some(RowsRead(data, 30)), section := InData))
  {
    hide ReadLine, Canonical, RowsRead, HeaderLines, RowLines;
    var first := FirstRegister(data);
    var h := p.(section := InHeader);
    HeaderMark(p);
    OneLine(p, "HEADER:");
    NoFields(data);
    FieldsRead(h, data, 5);
    assert HeaderLines(data)[..5] == HeaderLines(data);
    var f := AtField(h, data, 5);
    BlankLine(f);
    DataMark(f);
    TwoLines(f, "", "DATA:");
    var d := f.(section := InData);
    RowsAreRead(d, data, first, 30);
    NoRows(data);
    ReadAppend(p, ["HEADER:"], HeaderLines(data));
    ReadAppend(p, ["HEADER:"] + HeaderLines(data), ["", "DATA:"]);
    ReadAppend(p, ["HEADER:"] + HeaderLines(data) + ["", "DATA:"], RowLines(data, first, 30));
  }

  lemma NoFields(data: BankBytes)
    ensures Fields(data, 0) == NewBuilder()
  {
  }

  lemma NoRows(data: BankBytes)
    ensures RowsRead(data, 0) == Fields(data, 5)
  {
    hide Fields;
  }

  lemma TwoLines(p: State, a: string, b: string)
    requires ReadLine(p, a) == Some(p)
    ensures ReadLines(p, [a, b]) == ReadLine(p, b)
  {
    hide ReadLine;
    assert [a, b][1..] == [b];
    OneLine(p, b);
  }

  // ---------------------------------------------------------------- the whole card comes back

  /** Every side there is is a whole bank. */
  predicate SidesFull(sides: Sides) {
    && (sides[0].Some? ==> |sides[0].value| == BANK_BYTES)
    && (sides[1].Some? ==> |sides[1].value| == BANK_BYTES)
  }

  predicate SidesCanonical(sides: Sides) {
    && (sides[0].Some? ==> Canonical(sides[0].value))
    && (sides[1].Some? ==> Canonical(sides[1].value))
  }

  /** A parse that holds the first `n` of a card's sides, the last of them perhaps still in the builder. */
  ghost predicate Holds(p: State, doc: Document, n: nat)
    requires n <= 2
  {
    && !p.ended && p.cue == doc.cue
    && match FinishSide(p)
       case None => false
       case Some(q) =>
         q.sides == [if n > 0 then doc.sides[0] else None, if n > 1 then doc.sides[1] else None] && q.cue == doc.cue && !q.ended
  }

  lemma SideMarkIs(i: nat)
    requires i < 2
    ensures "SIDE: " + [Digit(i + 1)] == SideMarkLine(i)
  {
  }

  /** A side's part of the file is read into the card. */
  lemma SidePartRead(p: State, doc: Document, i: nat)
    requires i < 2 && SidesCanonical(doc.sides) && Holds(p, doc, i)
    ensures var r := ReadLines(p, SidePart(i, doc.sides[i])); r.Some? && Holds(r.value, doc, i + 1)
  {
    hide ReadLine, Canonical, RowsRead, SideLines, NewBuilder, SideMarkLine;
    if doc.sides[i].Some? {
      var data := doc.sides[i].value;
      var q := FinishSide(p).value;
      var s := q.(index := i, side := Some(NewBuilder()), section := InSide);
      CanonicalSize(data);
      BlankLine(p);
      SideMark(p, i);
      SideMarkIs(i);
      TwoLines(p, "", SideMarkLine(i));
      SideLinesRead(s, data);
      ReadAppend(p, ["", SideMarkLine(i)], SideLines(data));
      WholeImage(data);
      hide ReadLines, FinishSide;
      SideHeld(s.(side := Some(RowsRead(data, 30)), section := InData), doc, i);
    }
  }

  lemma CanonicalSize(data: seq<Byte>)
    requires Canonical(data)
    ensures |data| == BANK_BYTES
  {
  }

  lemma SideHeld(p: State, doc: Document, i: nat)
    requires i < 2 && p.index == i && doc.sides[i].Some? && !p.ended && p.cue == doc.cue
    requires p.side.Some? && Complete(p.side.value) && p.side.value.data == doc.sides[i].value
    requires p.sides == [if i > 0 then doc.sides[0] else None, None]
    ensures Holds(p, doc, i + 1)
  {
    hide Complete;
  }

  /** Reading the lines of a canonical card without a cue card gives the card. */
  lemma DocumentRead(doc: Document)
    requires doc.version == 2 && doc.cue == None && doc.single == [] && SidesCanonical(doc.sides)
    ensures ParseV2(DocumentLines(doc)[1..]) == Some(doc)
  {
    hide ReadLine, SidesCanonical, SidePart;
    var a, b := SidePart(0, doc.sides[0]), SidePart(1, doc.sides[1]);
    var lines := a + b + ["", "END-CARD"];
    assert DocumentLines(doc)[1..] == lines;
    var p := Beginning();
    StartHolds(doc);
    SidePartRead(p, doc, 0);
    var q := ReadLines(p, a).value;
    SidePartRead(q, doc, 1);
    var r := ReadLines(q, b).value;
    ReadAppend(p, a, b);
    ReadAppend(p, a + b, ["", "END-CARD"]);
    BlankLine(r);
    TwoLines(r, "", "END-CARD");
    EndLine(r);
    hide ReadLines, FinishSide, DocumentLines;
    BothSides(r, doc);
  }

  lemma StartHolds(doc: Document)
    requires doc.cue == None
    ensures Holds(Beginning(), doc, 0)
  {
  }

  lemma BothSides(r: State, doc: Document)
    requires Holds(r, doc, 2)
    ensures FinishSide(r).Some? && FinishSide(r).value.sides == doc.sides && FinishSide(r).value.cue == doc.cue
  {
    assert doc.sides == [doc.sides[0], doc.sides[1]];
    hide FinishSide;
  }

  // ---------------------------------------------------------------- the file

  /** A file's bytes, one to a character. */
  type Raw = s: string | IsRaw(s)

  predicate IsRaw(s: string) {
    forall i :: 0 <= i < |s| ==> s[i] as int < 0x100
  }

  function Bytes(raw: Raw): (b: seq<Byte>)
    ensures |b| == |raw|
  {
    seq(|raw|, i requires 0 <= i < |raw| => raw[i] as int)
  }

  datatype Decoded = Card(doc: Document) | Unparsable | WrongSize(payload: nat) | UnrecognisedSize(size: nat)

  function SingleSide(data: seq<Byte>): Document { Document(1, None, [None, None], data) }

  /** Any supported layout; the parser of version 1 text is `v1`. */
  function DecodeCardFile(raw: Raw, v1: string -> Option<Document>): Decoded {
    if StartsWith(raw, "Calc-U-59 Card ") && Utf8.Valid(Bytes(raw)) then
      var card := if StartsWith(raw, "Calc-U-59 Card 2") then ParseV2(SplitLines(raw)[1..]) else v1(raw);
      if card.Some? then Card(card.value) else Unparsable
    else if StartsWith(raw, "Calc-U-59-CRD") then
      if |raw| - 13 != BANK_BYTES then WrongSize(|raw| - 13) else Card(SingleSide(Bytes(raw)[13..]))
    else if |raw| != 246 && |raw| != 984 then UnrecognisedSize(|raw|)
    else Card(SingleSide(Bytes(raw)))
  }

  method DecodeFile(raw: Raw, v1: string -> Option<Document>) returns (d: Decoded)
    ensures d == DecodeCardFile(raw, v1)
  {
    hide ParseV2, Utf8.Valid, Pieces;
    var valid := false;
    if StartsWith(raw, "Calc-U-59 Card ") {
      valid := Utf8.IsValidUtf8(Bytes(raw));
      Utf8.ValidIsEncoded(Bytes(raw));
    }
    if valid {
      var card;
      if StartsWith(raw, "Calc-U-59 Card 2") {
        var lines := SplitIntoLines(raw);
        card := ReadDocument(lines);
      } else {
        card := v1(raw);
      }
      d := if card.Some? then Card(card.value) else Unparsable;
    } else if StartsWith(raw, "Calc-U-59-CRD") {
      d := if |raw| - 13 != BANK_BYTES then WrongSize(|raw| - 13) else Card(SingleSide(Bytes(raw)[13..]));
    } else {
      d := if |raw| != 246 && |raw| != 984 then UnrecognisedSize(|raw|) else Card(SingleSide(Bytes(raw)));
    }
  }

  // ---------------------------------------------------------------- round trip

  /** A line of the file as written. */
  ghost predicate Plain(line: string) {
    Ascii(line) && Free(line, NEWLINES)
  }

  ghost predicate AllPlain(lines: seq<string>) {
    forall i :: 0 <= i < |lines| ==> Plain(lines[i])
  }

  lemma {:induction false} JoinIsAscii(lines: seq<string>)
    requires AllPlain(lines)
    ensures Ascii(Join(lines, '\n'))
    decreases |lines|
  {
    if |lines| > 1 {
      JoinIsAscii(lines[1..]);
    }
  }

  lemma HeaderLinesPlain(data: BankBytes)
    ensures AllPlain(HeaderLines(data))
  {
    hide HeaderLines, Canonical, Field, IsContent;
    HeaderLineIs(data, 0);
    forall n | 0 <= n < 5 ensures Plain(HeaderLines(data)[n]) {
      HeaderLineIs(data, n);
      FieldIsClean(data, n);
      var f := Field(data, n);
      KeyAndValue(f.0, f.1);
    }
  }

  lemma {:induction false} RowLinesPlain(data: BankBytes, first: int, k: nat)
    requires k <= 30 && 0 <= first <= 150
    ensures AllPlain(RowLines(data, first, k))
    decreases k
  {
    hide RowLine;
    if k > 0 {
      RowLinesPlain(data, first, k - 1);
      RowLineParts(data, first, k - 1);
    }
  }

  lemma SidePartPlain(i: nat, side: Option<seq<Byte>>)
    requires i < 2 && (side.Some? ==> |side.value| == BANK_BYTES)
    ensures AllPlain(SidePart(i, side))
  {
    if side.Some? {
      var data: BankBytes := side.value;
      HeaderLinesPlain(data);
      RowLinesPlain(data, FirstRegister(data), 30);
      WordsPlain();
      hide HeaderLines, RowLines, Plain, Canonical;
      SideMarkPlain(i);
    }
  }

  lemma WordsPlain()
    ensures Plain("") && Plain("HEADER:") && Plain("DATA:") && Plain("END-CARD") && Plain("Calc-U-59 Card 2.0")
  {
  }

  lemma SideMarkPlain(i: nat)
    requires i < 2
    ensures Plain("SIDE: " + [Digit(i + 1)])
  {
  }

  lemma LinesPlain(doc: Document)
    requires doc.cue == None && SidesFull(doc.sides)
    ensures AllPlain(DocumentLines(doc))
  {
    SidePartPlain(0, doc.sides[0]);
    SidePartPlain(1, doc.sides[1]);
    WordsPlain();
    hide SidePart, Plain;
  }

  lemma MagicFirst(lines: seq<string>)
    requires |lines| > 1 && lines[0] == "Calc-U-59 Card 2.0"
    ensures var text := Join(lines, '\n');
            StartsWith(text, "Calc-U-59 Card ") && StartsWith(text, "Calc-U-59 Card 2")
  {
    var text := Join(lines, '\n');
    assert text[..18] == lines[0];
    assert text[..15] == lines[0][..15] && text[..16] == lines[0][..16];
    assert lines[0][..15] == "Calc-U-59 Card " && lines[0][..16] == "Calc-U-59 Card 2";
  }

  /** What a printed card decodes to is what its lines read as. */
  lemma PrintedIsRead(doc: Document, v1: string -> Option<Document>)
    requires doc.cue == None && SidesFull(doc.sides)
    ensures var text := EncodeDocument(doc);
            && Ascii(text) && IsRaw(text)
            && DecodeCardFile(text, v1) == match ParseV2(DocumentLines(doc)[1..])
                                           case Some(card) => Card(card)
                                           case None => Unparsable
  {
    hide ParseV2, Join, Pieces, Utf8.Valid, StartsWith, Plain, SidesFull;
    var lines := DocumentLines(doc);
    LinesPlain(doc);
    JoinIsAscii(lines);
    var text: Raw := EncodeDocument(doc);
    Utf8.AsciiIsValid(Bytes(text));
    MagicFirst(lines);
    PlainIsFree(lines);
    SplitJoin(lines, '\n', NEWLINES);
  }

  /**
   Card text round trip: a version 2 card without a cue card whose sides are canonical comes back
   from its file exactly as it was.
   */
  lemma CardTextRoundTrip(doc: Document, v1: string -> Option<Document>)
    requires doc.version == 2 && doc.cue == None && doc.single == [] && SidesCanonical(doc.sides)
    ensures var text := EncodeDocument(doc);
            Ascii(text) && IsRaw(text) && DecodeCardFile(text, v1) == Card(doc)
  {
    PrintedIsRead(doc, v1);
    hide ParseV2, SidesCanonical, DecodeCardFile, EncodeDocument, DocumentLines;
    DocumentRead(doc);
  }

  lemma PlainIsFree(lines: seq<string>)
    requires AllPlain(lines)
    ensures forall i :: 0 <= i < |lines| ==> Free(lines[i], NEWLINES)
  {
  }
}
