/**
 Any banks in a card file, canonical or not: what the writer's text says of them, and when it can
 be read again.
 */
module CardSides {
  import opened Words
  import opened TextUtil
  import opened Bcd
  import opened CardText

  /** A bank whose page byte names one of the four banks a file can name. */
  predicate Nameable(data: BankBytes) { data[2] % 16 <= 11 }

  /** The bank as the file's header can say it. */
  function Canon(data: BankBytes): (c: BankBytes)
    ensures Canonical(c)
  {
    var page: Byte := if Nameable(data) then PageByteOfBank(BankOfPageByte(data[2])) else 0x10;
    data[1 := if data[1] == 0x11 then 0x11 else 0x10][2 := page][3 := if data[3] == 0x10 then 0x10 else 0x00][245 := data[244]]
  }

  lemma CanonIsSame(data: BankBytes)
    requires Nameable(data)
    ensures Canon(data) == data <==> Canonical(data)
  {
  }

  lemma CanonicalIsNameable(data: BankBytes)
    requires Canonical(data)
    ensures Nameable(data)
  {
  }

  // ---------------------------------------------------------------- the same text

  lemma SameHeader(data: BankBytes)
    requires Nameable(data)
    ensures HeaderLines(data) == HeaderLines(Canon(data)) && FirstRegister(data) == FirstRegister(Canon(data))
  {
    hide Hex2, Digit;
    assert BankOfPageByte(Canon(data)[2]) == BankOfPageByte(data[2]);
  }

  lemma {:induction false} SameRows(data: BankBytes, first: int, k: nat)
    requires k <= 30 && 0 <= first <= 150
    ensures RowLines(data, first, k) == RowLines(Canon(data), first, k)
  {
    hide RowLabel, HexWords, Join, RowNibbles;
    if k > 0 {
      SameRows(data, first, k - 1);
      assert RowBytes(data, k - 1) == RowBytes(Canon(data), k - 1);
    }
  }

  lemma SamePart(i: nat, data: BankBytes)
    requires i < 2 && Nameable(data)
    ensures SidePart(i, Some(data)) == SidePart(i, Some(Canon(data)))
  {
    hide HeaderLines, RowLines, Canon;
    SameHeader(data);
    SameRows(data, FirstRegister(data), 30);
  }

  function CanonSide(side: Option<seq<Byte>>): Option<seq<Byte>> {
    if side.Some? && |side.value| == BANK_BYTES then Some(Canon(side.value)) else side
  }

  function CanonSides(sides: Sides): Sides { [CanonSide(sides[0]), CanonSide(sides[1])] }

  predicate SideNameable(side: Option<seq<Byte>>) {
    side.Some? && |side.value| == BANK_BYTES ==> Nameable(side.value)
  }

  predicate AllNameable(sides: Sides) { SideNameable(sides[0]) && SideNameable(sides[1]) }

  lemma SameLines(doc: Document)
    requires SidesFull(doc.sides) && AllNameable(doc.sides)
    ensures DocumentLines(doc) == DocumentLines(doc.(sides := CanonSides(doc.sides))) && SidesCanonical(CanonSides(doc.sides))
  {
    hide SidePart, Canon, Canonical;
    forall i: nat | i < 2 && doc.sides[i].Some?
      ensures SidePart(i, doc.sides[i]) == SidePart(i, CanonSide(doc.sides[i]))
    {
      SamePart(i, doc.sides[i].value);
    }
  }

  // ---------------------------------------------------------------- a bank no file can name

  /** The header is refused at its Bank line, whatever stands before it. */
  lemma BankLineRefused(p: State, data: BankBytes)
    requires !Nameable(data) && !p.ended && p.section == InHeader
    ensures |HeaderLines(data)| == 5 && ReadLine(p, HeaderLines(data)[2]) == None
  {
    hide ReadLine, Clean, IsContent, ToLower, Find, Digit, Hex2, HeaderLines;
    var f := Field(data, 2);
    HeaderLineIs(data, 2);
    FieldIsClean(data, 2);
    KeyAndValue(f.0, f.1);
    ContentLine(p, f.0 + ": " + f.1);
    DigitStaysLow(BankOfPageByte(data[2]));
    OneDigitParses(BankOfPageByte(data[2]));
    hide ParseDec, HeaderKey, HeaderValue;
  }

  lemma DigitStaysLow(n: int)
    requires 0 <= n < 10
    ensures ToLower([Digit(n)]) == [Digit(n)]
  {
    LowerWord([Digit(n)]);
  }

  lemma HeaderRefused(p: State, data: BankBytes)
    requires !Nameable(data) && !p.ended && p.section == InHeader && p.side == Some(NewBuilder())
    ensures ReadLines(p, HeaderLines(data)) == None
  {
    hide ReadLine, Canonical, Canon, Nameable, NewBuilder;
    var c, lines := Canon(data), HeaderLines(data);
    NoFields(c);
    FieldsRead(p, c, 2);
    SameStart(data);
    var q := AtField(p, c, 2);
    BankLineRefused(q, data);
    hide HeaderLines, AtField;
    assert lines == lines[..2] + lines[2..] && lines[2..][0] == lines[2];
    ReadAppend(p, lines[..2], lines[2..]);
  }

  lemma SameStart(data: BankBytes)
    ensures HeaderLines(data)[..2] == HeaderLines(Canon(data))[..2]
  {
    hide Hex2, Digit;
  }

  lemma SideRefused(p: State, data: BankBytes)
    requires !Nameable(data) && !p.ended && p.section == InSide && p.side == Some(NewBuilder())
    ensures ReadLines(p, SideLines(data)) == None
  {
    hide ReadLine, HeaderLines, RowLines, NewBuilder, Nameable;
    HeaderMark(p);
    OneLine(p, "HEADER:");
    HeaderRefused(p.(section := InHeader), data);
    var rest := ["", "DATA:"] + RowLines(data, FirstRegister(data), 30);
    assert SideLines(data) == ["HEADER:"] + HeaderLines(data) + rest;
    ReadAppend(p, ["HEADER:"], HeaderLines(data));
    ReadAppend(p, ["HEADER:"] + HeaderLines(data), rest);
  }

  /** A file is refused at the first side whose bank it cannot name. */
  lemma PartRefused(p: State, doc: Document, i: nat)
    requires i < 2 && Holds(p, doc, i) && doc.sides[i].Some? && |doc.sides[i].value| == BANK_BYTES
    requires !Nameable(doc.sides[i].value)
    ensures ReadLines(p, SidePart(i, doc.sides[i])) == None
  {
    hide ReadLine, SideLines, NewBuilder, SideMarkLine, Nameable;
    var data := doc.sides[i].value;
    var q := FinishSide(p).value;
    BlankLine(p);
    SideMark(p, i);
    SideMarkIs(i);
    TwoLines(p, "", SideMarkLine(i));
    SideRefused(q.(index := i, side := Some(NewBuilder()), section := InSide), data);
    ReadAppend(p, ["", SideMarkLine(i)], SideLines(data));
  }

  lemma DocumentRefused(doc: Document)
    requires doc.version == 2 && doc.cue == None && doc.single == [] && SidesFull(doc.sides) && !AllNameable(doc.sides)
    ensures ParseV2(DocumentLines(doc)[1..]) == None
  {
    hide ReadLine, SidesCanonical, SidePart, Nameable;
    var a, b := SidePart(0, doc.sides[0]), SidePart(1, doc.sides[1]);
    assert DocumentLines(doc)[1..] == a + b + ["", "END-CARD"];
    var p := Beginning();
    ReadAppend(p, a, b);
    ReadAppend(p, a + b, ["", "END-CARD"]);
    StartHolds(doc);
    if SideNameable(doc.sides[0]) {
      var d := doc.(sides := [CanonSide(doc.sides[0]), None]);
      FirstOnly(doc);
      StartHolds(d);
      SidePartRead(p, d, 0);
      OtherHolds(ReadLines(p, a).value, d, doc.(sides := [CanonSide(doc.sides[0]), doc.sides[1]]));
      PartRefused(ReadLines(p, a).value, doc.(sides := [CanonSide(doc.sides[0]), doc.sides[1]]), 1);
    } else {
      PartRefused(p, doc, 0);
    }
  }

  lemma FirstOnly(doc: Document)
    requires SidesFull(doc.sides) && SideNameable(doc.sides[0])
    ensures SidesCanonical([CanonSide(doc.sides[0]), None]) && SidePart(0, doc.sides[0]) == SidePart(0, CanonSide(doc.sides[0]))
  {
    hide SidePart, Canon, Canonical;
    if doc.sides[0].Some? {
      SamePart(0, doc.sides[0].value);
    }
  }

  lemma OtherHolds(p: State, d: Document, e: Document)
    requires Holds(p, d, 1) && d.cue == e.cue && d.sides[0] == e.sides[0]
    ensures Holds(p, e, 1)
  {
    hide FinishSide;
  }

  // ---------------------------------------------------------------- the round trip of any banks

  /**
   Whatever banks a version 2 card without a cue card holds: its file is readable exactly when the page
   byte of each names one of the four banks, and then gives the card with every bank in the form a
   header can say. So it gives the very card exactly when the banks are canonical.
   */
  lemma AnyRoundTrip(doc: Document, v1: string -> Option<Document>)
    requires doc.version == 2 && doc.cue == None && doc.single == [] && SidesFull(doc.sides)
    ensures var text := EncodeDocument(doc);
            && Ascii(text) && IsRaw(text)
            && DecodeCardFile(text, v1) == (if AllNameable(doc.sides) then Card(doc.(sides := CanonSides(doc.sides))) else Unparsable)
            && (DecodeCardFile(text, v1) == Card(doc) <==> SidesCanonical(doc.sides))
  {
    hide ParseV2, DecodeCardFile, EncodeDocument, DocumentLines;
    PrintedIsRead(doc, v1);
    if AllNameable(doc.sides) {
      SameLines(doc);
      DocumentRead(doc.(sides := CanonSides(doc.sides)));
    } else {
      DocumentRefused(doc);
    }
    CanonicalSides(doc.sides);
  }

  lemma CanonicalSides(sides: Sides)
    requires SidesFull(sides)
    ensures SidesCanonical(sides) <==> AllNameable(sides) && CanonSides(sides) == sides
  {
    hide Canonical, Nameable, Canon;
    forall i: nat | i < 2 && sides[i].Some?
      ensures Canonical(sides[i].value) <==> Nameable(sides[i].value) && Canon(sides[i].value) == sides[i].value
    {
      var data: BankBytes := sides[i].value;
      if Nameable(data) {
        CanonIsSame(data);
      } else if Canonical(data) {
        CanonicalIsNameable(data);
      }
    }
  }
}
