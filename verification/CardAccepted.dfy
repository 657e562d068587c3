/**
 What the reader of version 2 cards accepts was complete: each present side had its SIDE line,
 all five header keys and exactly thirty rows, and its bytes are canonical. So a card whose file
 was written by anyone keeps its other side when one side is written.
 */
module CardAccepted {
  import opened Words
  import opened TextUtil
  import opened Bcd
  import opened CardText
  import opened CardSides
  import Core
  import CardReader

  // ---------------------------------------------------------------- lines of a side

  function UpperOf(raw: string): string { ToUpper(StripInlineComment(raw)) }

  predicate IsEnd(raw: string) { UpperOf(raw) == "END-CARD" }

  predicate IsCueMark(raw: string) { UpperOf(raw) == "CUECARD:" }

  predicate IsSideMark(raw: string) { StartsWith(UpperOf(raw), "SIDE:") }

  predicate IsHeaderMark(raw: string) { UpperOf(raw) == "HEADER:" }

  predicate IsDataMark(raw: string) { UpperOf(raw) == "DATA:" }

  /** A line with content: a header field or a row. */
  predicate IsText(raw: string) {
    StripInlineComment(raw) != "" && !IsEnd(raw) && !IsCueMark(raw) && !IsSideMark(raw) && !IsHeaderMark(raw) && !IsDataMark(raw)
  }

  predicate SeenData(lines: seq<string>) {
    lines != [] && (SeenData(lines[..|lines| - 1]) || IsDataMark(lines[|lines| - 1]))
  }

  /** Rows of a side's lines: its content after DATA. */
  function Rows(lines: seq<string>): nat {
    if lines == [] then 0
    else
      var before, last := lines[..|lines| - 1], lines[|lines| - 1];
      Rows(before) + (if IsText(last) && SeenData(before) then 1 else 0)
  }

  /** Header keys of a side's lines: those of its content before DATA. */
  function Keys(lines: seq<string>): set<string> {
    if lines == [] then {}
    else
      var before, last := lines[..|lines| - 1], lines[|lines| - 1];
      Keys(before) + (if IsText(last) && !SeenData(before) then {HeaderKey(StripInlineComment(last))} else {})
  }

  lemma OneMoreLine(lines: seq<string>, raw: string)
    ensures SeenData(lines + [raw]) <==> SeenData(lines) || IsDataMark(raw)
    ensures Rows(lines + [raw]) == Rows(lines) + (if IsText(raw) && SeenData(lines) then 1 else 0)
    ensures Keys(lines + [raw]) ==
            if IsText(raw) && !SeenData(lines) then Keys(lines) + {HeaderKey(StripInlineComment(raw))} else Keys(lines)
  {
    hide IsText, IsDataMark, HeaderKey;
    assert (lines + [raw])[..|lines|] == lines;
  }

  // ---------------------------------------------------------------- the builder's account

  /** Fields were given, and what they and the initial zeros allow is canonical. */
  predicate BuilderOk(b: Builder) {
    && (b.dataType ==> b.data[1] == 0x10 || b.data[1] == 0x11)
    && (b.bank ==> b.data[2] in {0x10, 0x13, 0x16, 0x19})
    && (b.protection ==> b.data[3] == 0x00 || b.data[3] == 0x10)
    && b.data[244] == b.data[245] && b.rows <= 30
  }

  ghost predicate FieldsFrom(b: Builder, keys: set<string>) {
    && (b.partition ==> "partition" in keys) && (b.dataType ==> "datatype" in keys) && (b.bank ==> "bank" in keys)
    && (b.protection ==> "protection" in keys) && (b.checksum ==> "checksum" in keys)
  }

  /** A side being read accounts for the lines since its mark. */
  ghost predicate SideOk(p: State, lines: seq<string>) {
    && !p.ended && p.side.Some? && (p.section == InSide || p.section == InHeader || p.section == InData)
    && (SeenData(lines) <==> p.section == InData)
    && p.side.value.rows == Rows(lines) && FieldsFrom(p.side.value, Keys(lines)) && BuilderOk(p.side.value)
  }

  lemma FieldKeepsImage(b: Builder, key: string, val: string)
    requires BuilderOk(b) && WithField(b, key, val).Some?
    ensures var c := WithField(b, key, val).value; BuilderOk(c) && c.rows == b.rows
  {
    hide BuilderOk, ParseHex, ParseDec, AsByte, BankNumber, PageByteOfBank;
    if key == "partition" {
      SetPartition(b, AsByte(ParseHex(val)).value);
    } else if key == "datatype" {
      SetType(b, if val == "program" then 0x11 else 0x10);
    } else if key == "bank" {
      var n := BankNumber(ParseDec(val)).value;
      PageIsCanonical(n);
      SetPage(b, PageByteOfBank(n));
    } else if key == "protection" {
      SetProtection(b, if val == "yes" then 0x10 else 0x00);
    } else {
      SetChecksum(b, AsByte(ParseHex(val)).value);
    }
  }

  lemma SetPartition(b: Builder, v: Byte)
    requires BuilderOk(b)
    ensures BuilderOk(b.(data := b.data[0 := v], partition := true))
  {
  }

  lemma SetType(b: Builder, v: Byte)
    requires BuilderOk(b) && (v == 0x10 || v == 0x11)
    ensures BuilderOk(b.(data := b.data[1 := v], dataType := true))
  {
  }

  lemma SetPage(b: Builder, v: Byte)
    requires BuilderOk(b) && v in {0x10, 0x13, 0x16, 0x19}
    ensures BuilderOk(b.(data := b.data[2 := v], bank := true))
  {
  }

  lemma SetProtection(b: Builder, v: Byte)
    requires BuilderOk(b) && (v == 0x00 || v == 0x10)
    ensures BuilderOk(b.(data := b.data[3 := v], protection := true))
  {
  }

  lemma SetChecksum(b: Builder, v: Byte)
    requires BuilderOk(b)
    ensures BuilderOk(b.(data := b.data[244 := v][245 := v], checksum := true))
  {
  }

  lemma PageIsCanonical(n: int)
    ensures 1 <= n <= 4 ==> PageByteOfBank(n) in {0x10, 0x13, 0x16, 0x19}
  {
  }

  lemma FieldFromKey(b: Builder, key: string, val: string, keys: set<string>)
    requires FieldsFrom(b, keys) && WithField(b, key, val).Some?
    ensures FieldsFrom(WithField(b, key, val).value, keys + {key})
  {
    hide ParseHex, ParseDec, AsByte, BankNumber, PageByteOfBank;
  }

  lemma HeaderLineOk(b: Builder, line: string, keys: set<string>)
    requires BuilderOk(b) && FieldsFrom(b, keys) && HeaderLine(b, line).Some?
    ensures var c := HeaderLine(b, line).value;
            BuilderOk(c) && FieldsFrom(c, keys + {HeaderKey(line)}) && c.rows == b.rows
  {
    hide HeaderKey, HeaderValue, WithField, Find, BuilderOk, FieldsFrom;
    FieldKeepsImage(b, HeaderKey(line), HeaderValue(line));
    FieldFromKey(b, HeaderKey(line), HeaderValue(line), keys);
  }

  lemma DataLineOk(b: Builder, line: string)
    requires line != "" && BuilderOk(b) && DataLine(b, line).Some?
    ensures var c := DataLine(b, line).value;
            && BuilderOk(c) && c.rows == b.rows + 1
            && c == b.(data := c.data, rows := c.rows)
  {
    hide DecodeCardRow;
  }

  /** What a line that is neither SIDE nor END-CARD does to a parse with a side in progress. */
  lemma LineInside(p: State, raw: string)
    requires !p.ended && p.side.Some? && !IsEnd(raw) && !IsSideMark(raw) && ReadLine(p, raw).Some?
    ensures var q := ReadLine(p, raw).value;
            var line := StripInlineComment(raw);
            && (line == "" ==> q == p && !IsText(raw) && !IsDataMark(raw))
            && (IsHeaderMark(raw) ==> p.section == InSide && q == p.(section := InHeader))
            && (IsDataMark(raw) ==> p.section == InHeader && q == p.(section := InData))
            && (IsText(raw) ==> line != "" && Content(p, line) == Some(q))
            && (line != "" ==> IsHeaderMark(raw) || IsDataMark(raw) || IsText(raw))
            && !(IsHeaderMark(raw) && IsDataMark(raw)) && (IsText(raw) ==> !IsHeaderMark(raw) && !IsDataMark(raw))
            && (IsHeaderMark(raw) ==> line != "")
  {
    hide StripInlineComment, ToUpper, FinishSide, Content, StartsWith;
  }

  lemma SideStep(p: State, lines: seq<string>, raw: string)
    requires SideOk(p, lines) && !IsEnd(raw) && !IsSideMark(raw) && ReadLine(p, raw).Some?
    ensures var q := ReadLine(p, raw).value;
            SideOk(q, lines + [raw]) && q.index == p.index && q.sides == p.sides
  {
    hide ReadLine, StripInlineComment, IsText, IsDataMark, IsHeaderMark, IsEnd, IsSideMark, HeaderKey, HeaderLine, DataLine,
         BuilderOk, Keys, Rows;
    hide SeenData, FieldsFrom;
    LineInside(p, raw);
    OneMoreLine(lines, raw);
    var line := StripInlineComment(raw);
    if IsText(raw) {
      if p.section == InHeader {
        HeaderLineOk(p.side.value, line, Keys(lines));
      } else if p.section == InData {
        DataLineOk(p.side.value, line);
        KeysStay(p.side.value, DataLine(p.side.value, line).value, Keys(lines));
      }
    }
  }

  lemma KeysStay(b: Builder, c: Builder, keys: set<string>)
    requires FieldsFrom(b, keys) && c == b.(data := c.data, rows := c.rows)
    ensures FieldsFrom(c, keys)
  {
  }

  // ---------------------------------------------------------------- whole files

  const FIVE_KEYS: set<string> := {"partition", "datatype", "bank", "protection", "checksum"}

  /** Lines a..b are side `i`: its SIDE line, no other before `b`, which ends it; all five keys and thirty rows. */
  ghost predicate Segment(lines: seq<string>, a: nat, b: nat, i: nat) {
    && a < b < |lines| && IsSideMark(lines[a]) && ParseDec(Trim(StripInlineComment(lines[a])[5..])) == Some(i + 1)
    && (forall k :: a < k < b ==> !IsSideMark(lines[k]) && !IsEnd(lines[k]))
    && (IsSideMark(lines[b]) || IsEnd(lines[b]))
    && FIVE_KEYS <= Keys(lines[a + 1..b]) && Rows(lines[a + 1..b]) == 30
  }

  /** The side in progress began at `a`. */
  ghost predicate Since(p: State, lines: seq<string>, k: nat, a: nat) {
    && a < k <= |lines| && IsSideMark(lines[a]) && ParseDec(Trim(StripInlineComment(lines[a])[5..])) == Some(p.index + 1)
    && (forall j :: a < j < k ==> !IsSideMark(lines[j]) && !IsEnd(lines[j]))
    && SideOk(p, lines[a + 1..k])
  }

  /** The sides of a card came from segments of its file, and are canonical. */
  ghost predicate SidesFrom(sides: Sides, lines: seq<string>) {
    && SidesCanonical(sides)
    && forall i :: 0 <= i < 2 && sides[i].Some? ==> exists a, b :: Segment(lines, a, b, i)
  }

  /** What the lines read so far explain. */
  ghost predicate Explained(p: State, lines: seq<string>, k: nat) {
    && SidesFrom(p.sides, lines)
    && (p.side.Some? ==> exists a :: Since(p, lines, k, a))
  }

  lemma CompleteIsCanonical(b: Builder)
    requires Complete(b) && BuilderOk(b)
    ensures Canonical(b.data)
  {
  }

  /** The mark that ends a side in progress puts it into the card. */
  lemma SideEnds(p: State, lines: seq<string>, k: nat)
    requires Explained(p, lines, k) && k < |lines| && (IsSideMark(lines[k]) || IsEnd(lines[k])) && FinishSide(p).Some?
    ensures SidesFrom(FinishSide(p).value.sides, lines)
  {
    hide IsSideMark, IsEnd, Canonical, Keys, Rows, SeenData, Complete, BuilderOk, ParseDec, Trim;
    if p.side.Some? {
      var a :| Since(p, lines, k, a);
      CompleteIsCanonical(p.side.value);
      AllKeys(p.side.value, Keys(lines[a + 1..k]));
      assert Segment(lines, a, k, p.index);
    }
  }

  lemma AllKeys(b: Builder, keys: set<string>)
    requires Complete(b) && FieldsFrom(b, keys)
    ensures FIVE_KEYS <= keys && b.rows == 30
  {
  }

  lemma SideExplained(p: State, lines: seq<string>, k: nat)
    requires Explained(p, lines, k) && k < |lines| && ReadLine(p, lines[k]).Some?
    requires !p.ended && IsSideMark(lines[k]) && !IsEnd(lines[k])
    ensures Explained(ReadLine(p, lines[k]).value, lines, k + 1)
  {
    hide SidesFrom, SideOk, ReadLine, FinishSide, IsSideMark, IsEnd, ParseDec, Trim;
    SideBegins(p, lines[k]);
    SideEnds(p, lines, k);
    var q := ReadLine(p, lines[k]).value;
    FreshSide(q);
    assert lines[k + 1..k + 1] == [];
    assert Since(q, lines, k + 1, k);
  }

  lemma InsideExplained(p: State, lines: seq<string>, k: nat)
    requires Explained(p, lines, k) && k < |lines| && ReadLine(p, lines[k]).Some?
    requires !p.ended && p.side.Some? && !IsSideMark(lines[k]) && !IsEnd(lines[k])
    ensures Explained(ReadLine(p, lines[k]).value, lines, k + 1)
  {
    hide SidesFrom, SideOk, ReadLine, FinishSide, IsSideMark, IsEnd, ParseDec, Trim;
    var a :| Since(p, lines, k, a);
    SideStep(p, lines[a + 1..k], lines[k]);
    assert lines[a + 1..k + 1] == lines[a + 1..k] + [lines[k]];
    assert Since(ReadLine(p, lines[k]).value, lines, k + 1, a);
  }

  /** Reading one more line keeps the account. */
  lemma LineExplained(p: State, lines: seq<string>, k: nat)
    requires Explained(p, lines, k) && k < |lines| && ReadLine(p, lines[k]).Some?
    ensures Explained(ReadLine(p, lines[k]).value, lines, k + 1)
  {
    hide SidesFrom, SideOk, ReadLine, FinishSide, IsSideMark, IsEnd, Since;
    var raw := lines[k];
    if p.ended {
      EndedStays(p, raw);
      EndedHasNoSide(p, lines, k);
    } else if IsEnd(raw) {
      EndRead(p, raw);
      SideEnds(p, lines, k);
    } else if IsSideMark(raw) {
      SideExplained(p, lines, k);
    } else if p.side.Some? {
      InsideExplained(p, lines, k);
    } else {
      NoSideRead(p, raw);
    }
  }

  lemma EndedHasNoSide(p: State, lines: seq<string>, k: nat)
    requires Explained(p, lines, k) && p.ended
    ensures p.side.None?
  {
    hide SidesFrom, IsSideMark, IsEnd, ParseDec, Trim;
  }

  lemma EndedStays(p: State, raw: string)
    requires p.ended
    ensures ReadLine(p, raw) == Some(p)
  {
  }

  lemma EndRead(p: State, raw: string)
    requires !p.ended && IsEnd(raw) && ReadLine(p, raw).Some?
    ensures FinishSide(p).Some? && ReadLine(p, raw) == Some(Closed(FinishSide(p).value)) && FinishSide(p).value.side.None?
  {
    hide StripInlineComment, ToUpper, Content, StartsWith;
  }

  lemma SideBegins(p: State, raw: string)
    requires !p.ended && IsSideMark(raw) && !IsEnd(raw) && ReadLine(p, raw).Some?
    ensures FinishSide(p).Some?
    ensures var q := ReadLine(p, raw).value;
            && q.sides == FinishSide(p).value.sides && q.side == Some(NewBuilder()) && q.section == InSide && !q.ended
            && ParseDec(Trim(StripInlineComment(raw)[5..])) == Some(q.index + 1)
  {
    SideStarts(UpperOf(raw));
    hide StripInlineComment, ToUpper, Content, StartsWith, Trim, ParseDec, NewBuilder, Complete;
  }

  lemma FreshSide(q: State)
    requires q.side == Some(NewBuilder()) && q.section == InSide && !q.ended
    ensures SideOk(q, [])
  {
  }

  lemma NoSideRead(p: State, raw: string)
    requires !p.ended && p.side.None? && !IsEnd(raw) && !IsSideMark(raw) && ReadLine(p, raw).Some?
    ensures var q := ReadLine(p, raw).value; q.side.None? && q.sides == p.sides
  {
    hide StripInlineComment, ToUpper, FinishSide, StartsWith;
  }

  lemma {:induction false} PrefixExplained(lines: seq<string>, k: nat)
    requires k <= |lines| && ReadLines(Beginning(), lines[..k]).Some?
    ensures Explained(ReadLines(Beginning(), lines[..k]).value, lines, k)
    decreases k
  {
    hide ReadLine, Explained;
    if k == 0 {
      BeginningExplained(lines);
    } else {
      assert lines[..k] == lines[..k - 1] + [lines[k - 1]];
      ReadAppend(Beginning(), lines[..k - 1], [lines[k - 1]]);
      PrefixExplained(lines, k - 1);
      var p := ReadLines(Beginning(), lines[..k - 1]).value;
      OneLine(p, lines[k - 1]);
      LineExplained(p, lines, k - 1);
    }
  }

  lemma BeginningExplained(lines: seq<string>)
    ensures Explained(Beginning(), lines, 0)
  {
  }

  /**
   Any version 2 text that is accepted gave all five header keys and exactly thirty rows for each
   side it holds, and the side's bytes are canonical.
   */
  lemma AcceptedIsComplete(lines: seq<string>)
    requires ParseV2(lines).Some?
    ensures SidesFrom(ParseV2(lines).value.sides, lines)
  {
    hide SidesFrom, Explained, ReadLines;
    assert lines[..|lines|] == lines;
    PrefixExplained(lines, |lines|);
    JustSides(ReadLines(Beginning(), lines).value, lines);
  }

  lemma JustSides(p: State, lines: seq<string>)
    requires Explained(p, lines, |lines|)
    ensures SidesFrom(p.sides, lines)
  {
    hide SidesFrom;
  }

  // ---------------------------------------------------------------- writing one side

  datatype File = Missing | Unreadable | Holds(raw: Raw)

  datatype Saved = Written | CannotRead | CannotDecode | CannotWrite

  function WithBank(doc: Document, side: nat, bytes: seq<Byte>): Document
    requires side < 2
  {
    if doc.version == 1 then doc.(single := bytes) else doc.(sides := doc.sides[side := Some(bytes)])
  }

  /** A card in its own version; version 1 text is printed by `e1`. */
  function Encoded(doc: Document, e1: Document -> string): string {
    if doc.version == 1 then e1(doc) else EncodeDocument(doc)
  }

  /** The card fitted in the reader, and its file. */
  class FittedCard {
    var doc: Document
    var isNew: bool

    constructor (doc: Document, isNew: bool)
      ensures this.doc == doc && this.isNew == isNew
    {
      this.doc, this.isNew := doc, isNew;
    }

    /** What a write starts from: the fitted card, or what its file holds by now. */
    ghost function Base(file: File, v1: string -> Option<Document>): Option<Document>
      reads this
    {
      if isNew || file.Missing? then Some(doc)
      else if file.Unreadable? then None
      else if DecodeCardFile(file.raw, v1).Card? then Some(DecodeCardFile(file.raw, v1).doc) else None
    }

    /**
     One side is written back into the file, which may have changed since it was fitted. `text` is
     the file's new text; `writes` says whether the platform could write it.
     */
    method WriteSide(side: nat, written: seq<Byte>, file: File, presetCue: Option<seq<string>>, writes: bool,
                     v1: string -> Option<Document>, e1: Document -> string) returns (saved: Saved, text: string)
      requires side < 2
      modifies this
      ensures saved == Written <==> old(Base(file, v1)).Some? && writes
      ensures saved == Written ==>
                var base := WithBank(old(Base(file, v1)).value, side, written);
                doc == (if presetCue.Some? then base.(cue := presetCue) else base) && text == Encoded(doc, e1) && !isNew
      ensures saved != Written ==> doc == old(doc) && isNew == old(isNew)
    {
      text := "";
      var card := doc;
      if !isNew {
        if file.Unreadable? {
          return CannotRead, text;
        }
        if file.Holds? {
          var decoded := DecodeFile(file.raw, v1);
          if !decoded.Card? {
            return CannotDecode, text;
          }
          card := decoded.doc;
        }
      }
      card := WithBank(card, side, written);
      if presetCue.Some? {
        card := card.(cue := presetCue);
      }
      if card.version == 1 {
        text := e1(card);
      } else {
        text := WriteDocument(card);
      }
      if !writes {
        return CannotWrite, text;
      }
      doc, isNew := card, false;
      saved := Written;
    }
  }

  lemma FromText(raw: Raw, v1: string -> Option<Document>)
    requires StartsWith(raw, "Calc-U-59 Card 2") && DecodeCardFile(raw, v1).Card? && DecodeCardFile(raw, v1).doc.version == 2
    ensures ParseV2(SplitLines(raw)[1..]) == Some(DecodeCardFile(raw, v1).doc) && DecodeCardFile(raw, v1).doc.single == []
  {
    hide ReadLines, Pieces;
  }

  lemma FromCanonical(sides: Sides, lines: seq<string>)
    requires SidesFrom(sides, lines)
    ensures SidesCanonical(sides)
  {
    hide SidesCanonical;
  }

  lemma OneReplaced(sides: Sides, side: nat, written: BankBytes)
    requires side < 2 && SidesCanonical(sides)
    ensures var now: Sides := sides[side := Some(written)];
            && SidesFull(now) && (AllNameable(now) <==> Nameable(written))
            && CanonSides(now) == sides[side := Some(Canon(written))]
  {
    hide Nameable, Canon, Canonical;
    forall i: nat | i < 2 && sides[i].Some?
      ensures |sides[i].value| == BANK_BYTES && Nameable(sides[i].value) && Canon(sides[i].value) == sides[i].value
    {
      CanonicalSize(sides[i].value);
      CanonicalIsNameable(sides[i].value);
      CanonIsSame(sides[i].value);
    }
  }

  /**
   Writing one side: whatever version 2 text without a cue card the file held, and whatever bank the
   reader gave back, the file can be read again, its other side as it was, exactly when the third byte's
   low nibble is at most 11. The side written then reads as the bank in the form a header can say.
   */
  lemma OtherSideKept(raw: Raw, side: nat, written: seq<Byte>, v1: string -> Option<Document>, e1: Document -> string)
    requires side < 2 && |written| == BANK_BYTES
    requires StartsWith(raw, "Calc-U-59 Card 2") && DecodeCardFile(raw, v1).Card? && DecodeCardFile(raw, v1).doc.version == 2
    requires DecodeCardFile(raw, v1).doc.cue == None
    ensures var was := DecodeCardFile(raw, v1).doc;
            var text := Encoded(WithBank(was, side, written), e1);
            && Ascii(text) && IsRaw(text)
            && (written[2] % 16 <= 11 <==>
                DecodeCardFile(text, v1).Card? && DecodeCardFile(text, v1).doc.sides[1 - side] == was.sides[1 - side])
            && (written[2] % 16 <= 11 ==>
                DecodeCardFile(text, v1) == Card(was.(sides := was.sides[side := Some(Canon(written))])))
            && (written[2] % 16 > 11 ==> DecodeCardFile(text, v1) == Unparsable)
  {
    hide ParseV2, EncodeDocument, Canonical, StartsWith, SidesCanonical, SidesFull, CanonSides, AllNameable, Canon;
    var was := DecodeCardFile(raw, v1).doc;
    FromText(raw, v1);
    AcceptedIsComplete(SplitLines(raw)[1..]);
    FromCanonical(was.sides, SplitLines(raw)[1..]);
    OneReplaced(was.sides, side, written);
    AnyRoundTrip(WithBank(was, side, written), v1);
    hide DecodeCardFile;
  }

  function AsBytes(image: seq<bv8>): (r: seq<Byte>)
    ensures |r| == |image|
  {
    seq(|image|, i requires 0 <= i < |image| => image[i] as Byte)
  }

  /** The low nibble of a bank's third byte names one of the four banks. */
  predicate NamesBank(b: bv8) { (b & 0x0F) as nat <= 11 }

  lemma LowNibble(b: bv8)
    ensures (b as Byte) % 16 <= 11 <==> NamesBank(b)
  {
    assert (b & 0x0F) as nat == (b % 16) as nat;
  }

  /** Written into a card's file, the bank reads back in the form a header can say, and the other side as it was. */
  ghost predicate KeepsOther(was: Document, side: nat, written: seq<Byte>, v1: string -> Option<Document>, e1: Document -> string) {
    && side < 2 && |written| == BANK_BYTES
    && var text := Encoded(WithBank(was, side, written), e1);
       IsRaw(text) && DecodeCardFile(text, v1) == Card(was.(sides := was.sides[side := Some(Canon(written))]))
  }

  /**
   A write pass and the file: the reader gives a bank back, the one that was sent, exactly when its
   third byte names one; and whatever it gives back can be written into the file without harm to the
   file's other side.
   */
  lemma PassKeepsOtherSide(chip: Core.Chip, s: Core.State, x: CardReader.Session, raw: Raw, side: nat,
                           v1: string -> Option<Document>, e1: Document -> string)
    requires CardReader.Shaped(x) && |CardReader.Stream(chip, s, x)| >= BANK_BYTES && side < 2
    requires StartsWith(raw, "Calc-U-59 Card 2") && DecodeCardFile(raw, v1).Card? && DecodeCardFile(raw, v1).doc.version == 2
    requires DecodeCardFile(raw, v1).doc.cue == None
    ensures var sent := CardReader.Stream(chip, s, x)[..BANK_BYTES];
            var ejected := CardReader.Ejected(chip, s, x).1;
            && (ejected == if NamesBank(sent[2]) then sent else [])
            && (ejected != [] ==> KeepsOther(DecodeCardFile(raw, v1).doc, side, AsBytes(ejected), v1, e1))
  {
    hide CardReader.Shaped, CardReader.Stream, CardReader.Ejected, DecodeCardFile, StartsWith, KeepsOther, NamesBank,
         AsBytes;
    PassGivesBack(chip, s, x);
    var sent := CardReader.Stream(chip, s, x)[..BANK_BYTES];
    if NamesBank(sent[2]) {
      WriteKeeps(raw, side, sent, v1, e1);
    }
  }

  lemma PassGivesBack(chip: Core.Chip, s: Core.State, x: CardReader.Session)
    requires CardReader.Shaped(x) && |CardReader.Stream(chip, s, x)| >= BANK_BYTES
    ensures var sent := CardReader.Stream(chip, s, x)[..BANK_BYTES];
            CardReader.Ejected(chip, s, x).1 == if NamesBank(sent[2]) then sent else []
  {
    hide CardReader.Shaped, CardReader.Stream, CardReader.Ejected, Core.BankOf;
    CardReader.PassLands(chip, s, x);
    CardReader.BankExists(CardReader.Stream(chip, s, x)[2]);
  }

  lemma WriteKeeps(raw: Raw, side: nat, sent: seq<bv8>, v1: string -> Option<Document>, e1: Document -> string)
    requires side < 2 && |sent| == BANK_BYTES && NamesBank(sent[2])
    requires StartsWith(raw, "Calc-U-59 Card 2") && DecodeCardFile(raw, v1).Card? && DecodeCardFile(raw, v1).doc.version == 2
    requires DecodeCardFile(raw, v1).doc.cue == None
    ensures KeepsOther(DecodeCardFile(raw, v1).doc, side, AsBytes(sent), v1, e1)
  {
    hide DecodeCardFile, StartsWith, Encoded, WithBank, Canon, IsRaw, NamesBank;
    LowNibble(sent[2]);
    OtherSideKept(raw, side, AsBytes(sent), v1, e1);
  }
}
