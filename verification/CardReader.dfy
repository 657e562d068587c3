/**
 The magnetic card reader. The card switch shows exactly whether a card is in the reader, and
 a pass that writes a stream, ejects the card, and reads it back delivers the stream in KR.
 */
module CardReader {
  import opened Words
  import opened Core
  import opened CoreFrames
  import opened Execution
  import opened Runs

  // ---------------------------------------------------------------- instructions

  const IN_CRD: bv16 := 0x2
  const OUT_CRD: bv16 := 0x3
  const CRD_OFF: bv16 := 0x4
  const CRD_READ: bv16 := 0x5
  const CRD_WRITE: bv16 := 0xC

  /** The card instruction with that selector. */
  predicate Is(op: bv16, sel: bv16) { IsPeripheral(op) && Argument(op) == sel }

  predicate Plain(op: bv16) { !IsCardOp(op) }

  predicate IsMoveKrExt(op: bv16) { !IsBranch(op) && High(op) == 0x0A00 && op & 0x000F == 0xC }

  predicate Feeding(c: Card) { c.present && c.mode == Reading && c.ptr < BANK_BYTES }

  predicate Recording(c: Card) { c.present && c.mode == Writing && c.ptr < BANK_BYTES }

  /** What IN CRD delivers. */
  function Offered(c: Card): bv8 {
    if Feeding(c) then c.bank[c.ptr] else 0
  }

  function Advanced(c: Card): Card {
    if Feeding(c) then c.(ptr := c.ptr + 1) else c
  }

  function Recorded(c: Card, b: bv8): Card {
    if Recording(c) then c.(bank := c.bank[c.ptr := b], ptr := c.ptr + 1) else c
  }

  function StartWrite(c: Card): Card {
    if c.mode == NoPass then c.(mode := Writing, ptr := 0) else c
  }

  /** The reader's view of a card instruction. */
  function CardWork(c: Card, kr: bv16, sel: bv16): Card {
    if sel == IN_CRD then Advanced(c)
    else if sel == OUT_CRD then Recorded(c, KeyByte(kr))
    else if sel == CRD_OFF then FinishPass(c)
    else if sel == CRD_READ then StartRead(c)
    else StartWrite(c)
  }

  function SwitchWork(chip: Chip, key: KeyMatrix, sel: bv16): KeyMatrix {
    if sel == CRD_OFF then PressSwitch(chip, key) else key
  }

  /** The card, its switch, KR and EXT are as they were. */
  predicate SameReader(s: State, t: State) {
    t.card == s.card && t.key == s.key && t.kr == s.kr
  }

  predicate SameExt(s: State, t: State) {
    t.ext == s.ext && t.flags.extValid == s.flags.extValid
  }

  lemma FetchKeepsReader(s: State, op: bv16)
    ensures SameReader(s, Restore(Countdown(s), op)) && SameExt(s, Restore(Countdown(s), op))
  {
    hide CountedDown, IsBranch;
  }

  lemma EnterKeepsReader(s: State)
    ensures SameReader(s, Enter(s)) && Enter(s).ext == if s.flags.extValid then s.ext else 0
  {
  }

  lemma LeaveKeepsReader(x: State)
    ensures var t := LatchPreg(Redirect(x));
            t.card == x.card && t.key == x.key && t.kr == LatchTaken(x.kr) && SameExt(x, t)
  {
    hide NextAddr, LatchedPreg, LatchTaken;
  }

  lemma PeripheralDispatch(chip: Chip, e: State, op: bv16)
    requires IsPeripheral(op)
    ensures Execute(chip, e, op) == Peripheral(chip, e, op)
  {
    hide Peripheral, ExecuteAlu, FlagOp, KeyScan, MemoryOrFlags, TestBusy, LibraryOp, StoreRecall, PlainControl;
  }

  predicate Worked(chip: Chip, e: State, x: State, sel: bv16) {
    && x.card == CardWork(e.card, e.kr, sel) && x.key == SwitchWork(chip, e.key, sel)
    && (sel == IN_CRD ==> x.ext == OnBus(Offered(e.card)) && x.flags.extValid)
  }

  lemma InOutWork(chip: Chip, e: State)
    ensures Worked(chip, e, InCard(e), IN_CRD) && Worked(chip, e, OutCard(e), OUT_CRD)
  {
  }

  lemma PassWork(chip: Chip, e: State)
    ensures Worked(chip, e, CardOff(chip, e), CRD_OFF) && Worked(chip, e, CardRead(e), CRD_READ)
    ensures Worked(chip, e, CardWrite(e), CRD_WRITE)
  {
    hide FinishPass, StartRead, PressSwitch;
  }

  lemma PeripheralWork(chip: Chip, e: State, op: bv16)
    requires IsCardOp(op)
    ensures Worked(chip, e, Peripheral(chip, e, op), Argument(op))
  {
    hide Worked, InCard, OutCard, CardOff, CardRead, CardWrite, Argument, IsPeripheral;
    hide OutPrint, OutPrintFunction, PrintClear, PrintStep, PrintLine, PrintFeed, KeyToR5, R5ToKey, ArmRamOp;
    InOutWork(chip, e);
    PassWork(chip, e);
  }

  lemma CardOpIsPeripheral(op: bv16)
    requires IsCardOp(op)
    ensures IsPeripheral(op) && !IsBranch(op)
  {
  }

  /** A card instruction does its work on the card, the switch and EXT. */
  lemma CardStep(chip: Chip, s: State, op: bv16)
    requires IsCardOp(op)
    ensures Worked(chip, s, Exec(chip, s, op), Argument(op))
  {
    hide IsCardOp, Execute, Peripheral, Enter, Redirect, LatchPreg, Restore, Countdown, Argument, IsPeripheral, IsBranch;
    hide CardWork, SwitchWork, Offered;
    CardOpIsPeripheral(op);
    FetchKeepsReader(s, op);
    var r := Restore(Countdown(s), op);
    EnterKeepsReader(r);
    PeripheralDispatch(chip, Enter(r), op);
    PeripheralWork(chip, Enter(r), op);
    LeaveKeepsReader(Execute(chip, Enter(r), op));
  }

  /** Any other instruction leaves the card alone, but for the note that the ROM waits for one. */
  lemma PlainStep(chip: Chip, s: State, op: bv16)
    requires Plain(op)
    ensures KeepsCard(s, Exec(chip, s, op))
  {
    hide IsCardOp, Perform, Restore, Countdown;
    FetchKeepsReader(s, op);
    PerformKeeps(chip, Restore(Countdown(s), op), op);
  }

  lemma MovedByte(k: bv16, b: bv8)
    ensures KeyByte(LatchTaken(KeyFromExt(k, OnBus(b)))) == b
  {
  }

  lemma MoveExecutes(chip: Chip, e: State, op: bv16)
    requires IsMoveKrExt(op)
    ensures !IsBranch(op) && Execute(chip, e, op) == e.(kr := KeyFromExt(e.kr, e.ext))
  {
    hide Peripheral, ExecuteAlu, FlagOp, KeyScan, MemoryOrFlags, TestBusy, LibraryOp, StoreRecall, IncKR, TestsKR, KeyFromExt;
  }

  /** MOV KR,EXT right after IN CRD puts the byte into KR. */
  lemma MoveStep(chip: Chip, s: State, op: bv16, b: bv8)
    requires IsMoveKrExt(op) && s.flags.extValid && s.ext == OnBus(b)
    ensures KeyByte(Exec(chip, s, op).kr) == b
  {
    hide Execute, Enter, Redirect, LatchPreg, Restore, Countdown, IsBranch, IsMoveKrExt, KeyByte, OnBus, KeyFromExt, LatchTaken;
    FetchKeepsReader(s, op);
    var r := Restore(Countdown(s), op);
    EnterKeepsReader(r);
    MoveExecutes(chip, Enter(r), op);
    LeaveKeepsReader(Execute(chip, Enter(r), op));
    MovedByte(Enter(r).kr, b);
  }

  // ---------------------------------------------------------------- passes

  ghost predicate AllPlain(ops: seq<bv16>) {
    forall i :: 0 <= i < |ops| ==> Plain(ops[i])
  }

  /** Instructions of a write pass: OUT CRD and anything not for the card. */
  ghost predicate WriteBody(ops: seq<bv16>) {
    forall i :: 0 <= i < |ops| ==> Plain(ops[i]) || Is(ops[i], OUT_CRD)
  }

  /** What KR holds at each OUT CRD of a run. */
  function Sent(chip: Chip, s: State, ops: seq<bv16>): seq<bv8>
    decreases |ops|
  {
    if ops == [] then [] else SentBy(s, ops[0]) + Sent(chip, Exec(chip, s, ops[0]), ops[1..])
  }

  function SentBy(s: State, op: bv16): seq<bv8> {
    if Is(op, OUT_CRD) then [KeyByte(s.kr)] else []
  }

  /** `bytes` laid over the image from `at` on, as far as they fit. */
  function Overlaid(image: BankImage, at: CardIndex, bytes: seq<bv8>): BankImage {
    var n := Min(|bytes|, BANK_BYTES - at);
    image[..at] + bytes[..n] + image[at + n..]
  }

  function AfterWrite(c: Card, bytes: seq<bv8>): Card {
    c.(bank := Overlaid(c.bank, c.ptr, bytes), ptr := c.ptr + Min(|bytes|, BANK_BYTES - c.ptr))
  }

  predicate SameCard(c: Card, d: Card) { d == c.(waiting := d.waiting) }

  lemma OverlaidFirst(c: Card, b: bv8, rest: seq<bv8>)
    requires c.present && c.mode == Writing
    ensures AfterWrite(Recorded(c, b), rest) == AfterWrite(c, [b] + rest)
  {
    var n := Min(|rest|, BANK_BYTES - Recorded(c, b).ptr);
    hide KeyByte;
    if c.ptr < BANK_BYTES {
      assert ([b] + rest)[..n + 1] == [b] + rest[..n];
      assert Overlaid(Recorded(c, b).bank, c.ptr + 1, rest) == Overlaid(c.bank, c.ptr, [b] + rest);
    }
  }

  lemma AfterNothing(c: Card)
    ensures AfterWrite(c, []) == c
  {
    assert Overlaid(c.bank, c.ptr, []) == c.bank;
  }

  lemma OutStep(chip: Chip, s: State, op: bv16)
    requires Is(op, OUT_CRD)
    ensures var t := Exec(chip, s, op); t.card == Recorded(s.card, KeyByte(s.kr)) && t.key == s.key
  {
    hide Exec, Recorded, KeyByte, IsPeripheral;
    CardStep(chip, s, op);
  }

  /** A write pass lays what KR held at each OUT CRD into the image, past byte 246 nothing. */
  lemma {:induction false} WritePass(chip: Chip, s: State, ops: seq<bv16>)
    requires WriteBody(ops) && s.card.present && s.card.mode == Writing
    ensures var t := Run(chip, s, ops);
            SameCard(AfterWrite(s.card, Sent(chip, s, ops)), t.card) && t.key == s.key
    decreases |ops|
  {
    hide Exec, AfterWrite, KeyByte, IsCardOp, Is;
    if ops == [] {
      AfterNothing(s.card);
    } else {
      var u := Exec(chip, s, ops[0]);
      var rest := Sent(chip, u, ops[1..]);
      if Is(ops[0], OUT_CRD) {
        OutStep(chip, s, ops[0]);
        WritePass(chip, u, ops[1..]);
        OverlaidFirst(s.card, KeyByte(s.kr), rest);
      } else {
        PlainStep(chip, s, ops[0]);
        WritePass(chip, u, ops[1..]);
        WaitingApart(s.card, u.card, rest);
        assert Sent(chip, s, ops) == rest;
      }
    }
  }

  /** The waiting note does not matter to a write. */
  lemma WaitingApart(c: Card, d: Card, bytes: seq<bv8>)
    requires SameCard(c, d)
    ensures SameCard(AfterWrite(c, bytes), AfterWrite(d, bytes))
  {
    hide Overlaid;
  }

  lemma {:induction false} PlainRun(chip: Chip, s: State, ops: seq<bv16>)
    requires AllPlain(ops)
    ensures KeepsCard(s, Run(chip, s, ops))
    decreases |ops|
  {
    hide Exec, IsCardOp;
    if ops != [] {
      PlainStep(chip, s, ops[0]);
      PlainRun(chip, Exec(chip, s, ops[0]), ops[1..]);
    }
  }

  /** One byte of a read pass: other instructions, IN CRD, then MOV KR,EXT. */
  datatype Round = Round(wait: seq<bv16>, input: bv16, move: bv16)

  ghost predicate ReadRound(r: Round) {
    AllPlain(r.wait) && Is(r.input, IN_CRD) && IsMoveKrExt(r.move)
  }

  ghost predicate ReadBody(rounds: seq<Round>) {
    forall i :: 0 <= i < |rounds| ==> ReadRound(rounds[i])
  }

  function AfterRound(chip: Chip, s: State, r: Round): State {
    Exec(chip, Exec(chip, Run(chip, s, r.wait), r.input), r.move)
  }

  /** KR bits 4-11 after each round. */
  function Collected(chip: Chip, s: State, rounds: seq<Round>): seq<bv8>
    decreases |rounds|
  {
    if rounds == [] then []
    else [KeyByte(AfterRound(chip, s, rounds[0]).kr)] + Collected(chip, AfterRound(chip, s, rounds[0]), rounds[1..])
  }

  /** The image from the pointer on, zeros past its end. */
  function Feed(c: Card, n: nat): seq<bv8> {
    seq(n, i requires 0 <= i < n => if c.ptr + i < BANK_BYTES then c.bank[c.ptr + i] else 0)
  }

  lemma InStep(chip: Chip, s: State, op: bv16)
    requires Is(op, IN_CRD)
    ensures var t := Exec(chip, s, op);
            t.card == Advanced(s.card) && t.key == s.key && t.ext == OnBus(Offered(s.card)) && t.flags.extValid
  {
    hide Exec, Advanced, Offered, OnBus, IsPeripheral;
    CardStep(chip, s, op);
  }

  lemma MoveIsPlain(op: bv16)
    requires IsMoveKrExt(op)
    ensures Plain(op)
  {
  }

  lemma OneRound(chip: Chip, s: State, r: Round)
    requires ReadRound(r) && s.card.present && s.card.mode == Reading
    ensures var t := AfterRound(chip, s, r);
            KeyByte(t.kr) == Offered(s.card) && SameCard(Advanced(s.card), t.card)
  {
    hide Exec, OnBus, KeyByte, IsMoveKrExt, Is, Plain;
    PlainRun(chip, s, r.wait);
    var u := Run(chip, s, r.wait);
    InStep(chip, u, r.input);
    MoveIsPlain(r.move);
    MoveStep(chip, Exec(chip, u, r.input), r.move, Offered(u.card));
    PlainStep(chip, Exec(chip, u, r.input), r.move);
  }

  /** A read pass delivers the image in order, then zeros. */
  lemma {:induction false} ReadPass(chip: Chip, s: State, rounds: seq<Round>)
    requires ReadBody(rounds) && s.card.present && s.card.mode == Reading
    ensures Collected(chip, s, rounds) == Feed(s.card, |rounds|)
    decreases |rounds|
  {
    hide Exec, AfterRound, KeyByte, ReadRound;
    if rounds != [] {
      var t := AfterRound(chip, s, rounds[0]);
      OneRound(chip, s, rounds[0]);
      ReadPass(chip, t, rounds[1..]);
      assert Feed(s.card, |rounds|) == [Offered(s.card)] + Feed(t.card, |rounds| - 1);
    }
  }

  // ---------------------------------------------------------------- the round trip

  /** What the host and the ROM do to write a card and read it back. */
  datatype Session = Session(
    blank: seq<bv8>, lead: seq<bv16>, write: bv16, body: seq<bv16>, off: bv16,
    between: seq<bv16>, lead2: seq<bv16>, read: bv16, rounds: seq<Round>)

  ghost predicate Shaped(x: Session) {
    && AllPlain(x.lead) && Is(x.write, CRD_WRITE) && WriteBody(x.body) && Is(x.off, CRD_OFF)
    && AllPlain(x.between) && AllPlain(x.lead2) && Is(x.read, CRD_READ) && ReadBody(x.rounds)
  }

  function WriteStarted(chip: Chip, s: State, x: Session): State {
    Exec(chip, Run(chip, InsertCard(chip, s, x.blank), x.lead), x.write)
  }

  /** The bytes the ROM sent to the writer. */
  function Stream(chip: Chip, s: State, x: Session): seq<bv8> {
    Sent(chip, WriteStarted(chip, s, x), x.body)
  }

  function Written(chip: Chip, s: State, x: Session): State {
    Exec(chip, Run(chip, WriteStarted(chip, s, x), x.body), x.off)
  }

  function Ejected(chip: Chip, s: State, x: Session): (State, seq<bv8>) {
    CardEject(chip, Written(chip, s, x))
  }

  function ReadStarted(chip: Chip, s: State, x: Session): State {
    var e := Ejected(chip, s, x);
    Exec(chip, Run(chip, InsertCard(chip, Run(chip, e.0, x.between), e.1), x.lead2), x.read)
  }

  lemma SelectorsAreCardOps(op: bv16)
    ensures Is(op, IN_CRD) || Is(op, OUT_CRD) || Is(op, CRD_OFF) || Is(op, CRD_READ) || Is(op, CRD_WRITE) ==> IsCardOp(op)
  {
  }

  lemma WriteStarts(chip: Chip, s: State, x: Session)
    requires Shaped(x)
    ensures var c := WriteStarted(chip, s, x).card;
            c.present && c.mode == Writing && c.ptr == 0 && c.written == None
  {
    hide Exec, Is, WriteBody, ReadBody, ReleaseSwitch;
    var t := InsertCard(chip, s, x.blank);
    PlainRun(chip, t, x.lead);
    var u := Run(chip, t, x.lead);
    SelectorsAreCardOps(x.write);
    SelectorOf(x.write, CRD_WRITE);
    CardStep(chip, u, x.write);
    hide Run;
  }

  lemma SelectorOf(op: bv16, sel: bv16)
    requires Is(op, sel)
    ensures Argument(op) == sel
  {
  }

  /** The whole stream is on the card, in its bank, after the pass; nothing otherwise. */
  lemma PassLands(chip: Chip, s: State, x: Session)
    requires Shaped(x) && |Stream(chip, s, x)| >= BANK_BYTES
    ensures var sent := Stream(chip, s, x)[..BANK_BYTES];
            Ejected(chip, s, x).1 == if BankOf(sent[2]) < 4 then sent else []
  {
    hide Exec, Is, ReadBody, Run, Sent, WriteStarted, BankOf, PressSwitch;
    var u := WriteStarted(chip, s, x);
    WriteStarts(chip, s, x);
    WritePass(chip, u, x.body);
    var v := Run(chip, u, x.body);
    SelectorsAreCardOps(x.off);
    SelectorOf(x.off, CRD_OFF);
    CardStep(chip, v, x.off);
    assert v.card.bank == Stream(chip, s, x)[..BANK_BYTES];
    if BankOf(v.card.bank[2]) < 4 {
      BankReadsBack(v.card.full, BankOf(v.card.bank[2]), v.card.bank);
    }
  }

  lemma BankReadsBack(full: FullCard, bank: nat, image: BankImage)
    requires bank < 4
    ensures BankSlice(WithBank(full, bank, image), bank) == image
  {
  }

  lemma ReadStarts(chip: Chip, s: State, x: Session)
    requires Shaped(x)
    ensures var c := ReadStarted(chip, s, x).card;
            var data := Ejected(chip, s, x).1;
            && c.present && c.mode == Reading && c.ptr == 0
            && (|data| == BANK_BYTES ==> c.bank == data)
            && (data == [] ==> c.bank == seq(BANK_BYTES, _ => 0))
  {
    hide Exec, Is, WriteBody, ReadBody, ReleaseSwitch, Ejected;
    var e := Ejected(chip, s, x);
    var t := InsertCard(chip, Run(chip, e.0, x.between), e.1);
    PlainRun(chip, t, x.lead2);
    var u := Run(chip, t, x.lead2);
    SelectorsAreCardOps(x.read);
    SelectorOf(x.read, CRD_READ);
    CardStep(chip, u, x.read);
    hide Run;
    ZeroHeaderIsBankZero(u.card);
    FirstBank(e.1, t.card.full);
  }

  lemma ZeroHeaderIsBankZero(c: Card)
    requires c.mode == NoPass && c.bank == seq(BANK_BYTES, _ => 0)
    ensures StartRead(c) == c.(bank := BankSlice(c.full, 0), mode := Reading, ptr := 0)
  {
  }

  lemma FirstBank(data: seq<bv8>, full: FullCard)
    requires full == data[..Min(|data|, 4 * BANK_BYTES)] + seq(4 * BANK_BYTES - Min(|data|, 4 * BANK_BYTES), _ => 0)
    ensures |data| == BANK_BYTES ==> BankSlice(full, 0) == data
    ensures data == [] ==> BankSlice(full, 0) == seq(BANK_BYTES, _ => 0)
  {
  }

  /**
   Card round trip: what a write pass sent is what the next read pass collects in KR, if and
   only if the third byte's low nibble names a bank (11 at most); otherwise the pass is lost
   and the card reads as zeros.
   */
  lemma CardRoundTrip(chip: Chip, s: State, x: Session)
    requires Shaped(x) && |Stream(chip, s, x)| >= BANK_BYTES && |x.rounds| == BANK_BYTES
    ensures var sent := Stream(chip, s, x)[..BANK_BYTES];
            var got := Collected(chip, ReadStarted(chip, s, x), x.rounds);
            && (got == sent <==> (sent[2] & 0x0F) as nat <= 11)
            && ((sent[2] & 0x0F) as nat > 11 ==> got == seq(BANK_BYTES, _ => 0))
  {
    hide Exec, Is, Run, Sent, ReadStarted, Ejected, Collected, Stream, Shaped, BankOf;
    var sent := Stream(chip, s, x)[..BANK_BYTES];
    PassLands(chip, s, x);
    ReadStarts(chip, s, x);
    assert ReadBody(x.rounds) by { ShapedReads(x); }
    ReadPass(chip, ReadStarted(chip, s, x), x.rounds);
    BankExists(sent[2]);
    var c := ReadStarted(chip, s, x).card;
    assert Feed(c, BANK_BYTES) == c.bank;
  }

  lemma ShapedReads(x: Session)
    requires Shaped(x)
    ensures ReadBody(x.rounds)
  {
  }

  lemma BankExists(header: bv8)
    ensures BankOf(header) < 4 <==> (header & 0x0F) as nat <= 11
    ensures BankOf(header) >= 4 ==> header != 0
  {
  }

  // ---------------------------------------------------------------- the switch

  /** The card-detect line is pressed exactly while no card is in the reader. */
  predicate SwitchOk(chip: Chip, s: State) {
    s.key[chip.cardSwitchCol] & CARD_SWITCH != 0 <==> !s.card.present
  }

  /** A step, a card going in or out, a machine reset, or a key of the matrix other than the switch. */
  datatype Action = Tick | Insert(data: seq<bv8>) | Eject | Restart | Key(col: Nibble, line: bv8, down: bool)

  predicate Allowed(chip: Chip, a: Action) {
    a.Key? ==> a.col != chip.cardSwitchCol || a.line & CARD_SWITCH == 0
  }

  function Pressed(key: KeyMatrix, col: Nibble, line: bv8, down: bool): KeyMatrix {
    key[col := if down then key[col] | line else key[col] & !line]
  }

  function Act(chip: Chip, s: State, a: Action): State {
    match a
    case Tick => Step(chip, s)
    case Insert(data) => InsertCard(chip, s, data)
    case Eject => CardEject(chip, s).0
    case Restart => Reset(s).(key := PressSwitch(chip, Reset(s).key))
    case Key(col, line, down) => s.(key := Pressed(s.key, col, line, down))
  }

  lemma SwitchPressed(chip: Chip, key: KeyMatrix)
    ensures PressSwitch(chip, key)[chip.cardSwitchCol] & CARD_SWITCH != 0
    ensures ReleaseSwitch(chip, key)[chip.cardSwitchCol] & CARD_SWITCH == 0
  {
  }

  lemma KeysApart(chip: Chip, key: KeyMatrix, col: Nibble, line: bv8, down: bool)
    requires col != chip.cardSwitchCol || line & CARD_SWITCH == 0
    ensures Pressed(key, col, line, down)[chip.cardSwitchCol] & CARD_SWITCH == key[chip.cardSwitchCol] & CARD_SWITCH
  {
  }

  lemma StepKeepsSwitch(chip: Chip, s: State)
    requires SwitchOk(chip, s)
    ensures SwitchOk(chip, Step(chip, s))
  {
    hide Exec, Step, IsCardOp, PressSwitch, BankSlice, WithBank, BankOf, KeyByte, Argument;
    var op := chip.rom(s.addr);
    StepIsExec(chip, s);
    SwitchPressed(chip, s.key);
    if IsCardOp(op) {
      CardStep(chip, s, op);
    } else {
      PlainStep(chip, s, op);
    }
  }

  lemma ActKeepsSwitch(chip: Chip, s: State, a: Action)
    requires SwitchOk(chip, s) && Allowed(chip, a)
    ensures SwitchOk(chip, Act(chip, s, a))
  {
    hide Step, PressSwitch, ReleaseSwitch, Pressed, FlushActive, BankSlice;
    match a
    case Tick => StepKeepsSwitch(chip, s);
    case Insert(_) => SwitchPressed(chip, s.key);
    case Eject => SwitchPressed(chip, s.key);
    case Restart => SwitchPressed(chip, seq(16, _ => 0));
    case Key(col, line, down) => KeysApart(chip, s.key, col, line, down);
  }

  function Actions(chip: Chip, s: State, acts: seq<Action>): State {
    Fold((t, a) => Act(chip, t, a), s, acts)
  }

  /** In every reachable state the switch shows whether a card is present. */
  lemma {:induction false} SwitchShowsCard(chip: Chip, s: State, acts: seq<Action>)
    requires SwitchOk(chip, s) && forall i :: 0 <= i < |acts| ==> Allowed(chip, acts[i])
    ensures SwitchOk(chip, Actions(chip, s, acts))
    decreases |acts|
  {
    hide Act, SwitchOk, Allowed;
    if acts != [] {
      ActKeepsSwitch(chip, s, acts[0]);
      SwitchShowsCard(chip, Act(chip, s, acts[0]), acts[1..]);
    }
  }
}
