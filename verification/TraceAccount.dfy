/**
 What a trace file tells of the frames the CPU finished: which record stands for which frame, what
 the gaps stand for, and that loading the file gives exactly those frames back.
 */
module TraceAccount {
  import opened Words
  import opened Alu
  import opened Core
  import opened Tracing
  import opened TraceFile

  // ---------------------------------------------------------------- frames as the writer sees them

  /** Bits, lowest first, as a number. */
  function Binary(bits: seq<bool>): nat {
    if bits == [] then 0 else (if bits[0] then 1 else 0) + 2 * Binary(bits[1..])
  }

  /** Bit `n` of a number, 0 the lowest. */
  predicate BitAt(w: nat, n: nat) {
    if n == 0 then w % 2 == 1 else BitAt(w / 2, n - 1)
  }

  function Pow2(n: nat): nat {
    if n == 0 then 1 else 2 * Pow2(n - 1)
  }

  lemma {:induction false} BinaryBits(bits: seq<bool>, n: nat)
    ensures Binary(bits) < Pow2(|bits|)
    ensures BitAt(Binary(bits), n) <==> n < |bits| && bits[n]
    decreases |bits|, n
  {
    if bits == [] {
      if n > 0 {
        BinaryBits(bits, n - 1);
      }
    } else {
      BinaryBits(bits[1..], if n == 0 then 0 else n - 1);
    }
  }

  /** The flag at a bit of the flag word; bits 3 and 12 to 14 have none. */
  function FlagBit(f: Flags, n: nat): bool {
    match n
    case 0 => f.idle
    case 1 => f.hold
    case 2 => f.jump
    case 4 => f.recall
    case 5 => f.store
    case 6 => f.ramOp
    case 7 => f.ramRead
    case 8 => f.ramWrite
    case 9 => f.extValid
    case 10 => f.ioValid
    case 11 => f.cond
    case 15 => f.busy
    case _ => false
  }

  function FlagBits(f: Flags): (r: seq<bool>)
    ensures |r| == 16
  {
    seq(16, n requires 0 <= n < 16 => FlagBit(f, n))
  }

  lemma Pow2Of16()
    ensures Pow2(16) == 0x10000
  {
    assert Pow2(8) == 0x100;
  }

  /** The flag word, every flag at its bit. */
  function FlagWord(f: Flags): TraceFile.Word {
    BinaryBits(FlagBits(f), 0);
    Pow2Of16();
    Binary(FlagBits(f))
  }

  function LowByte(n: nat): Byte { n % 0x100 }

  function LowWord(n: nat): TraceFile.Word { n % 0x10000 }

  /** A ring slot, field by field as the writer puts it into a record. */
  function ToRec(f: Frame): FrameRec {
    FrameRec(f.seqno, f.pc as TraceFile.Word, f.opcode as TraceFile.Word, f.light.fa as TraceFile.Word, f.light.fb as TraceFile.Word,
             f.light.kr as TraceFile.Word, f.light.sr as TraceFile.Word, f.full.ext as TraceFile.Word, f.full.preg as TraceFile.Word,
             FlagWord(f.full.flags), LowWord(f.full.libAddr), f.light.r5, f.digit, f.full.ramAddr, f.full.ramOp, f.full.regAddr,
             LowByte(f.full.libReadPos), LowByte(f.cycleWeight), if f.display.on then 1 else 0, f.display.positions,
             f.full.regs.a, f.full.regs.b, f.full.regs.c, f.full.regs.d, f.full.regs.e, f.full.regs.sout)
  }

  // ---------------------------------------------------------------- a loaded frame and the CPU

  /** A flag word, bit by bit. */
  predicate ShowsBits(w: nat, f: Flags) {
    && (BitAt(w, 0) <==> f.idle) && (BitAt(w, 1) <==> f.hold) && (BitAt(w, 2) <==> f.jump) && !BitAt(w, 3)
    && (BitAt(w, 4) <==> f.recall) && (BitAt(w, 5) <==> f.store) && (BitAt(w, 6) <==> f.ramOp) && (BitAt(w, 7) <==> f.ramRead)
    && (BitAt(w, 8) <==> f.ramWrite) && (BitAt(w, 9) <==> f.extValid) && (BitAt(w, 10) <==> f.ioValid)
    && (BitAt(w, 11) <==> f.cond) && !BitAt(w, 12) && !BitAt(w, 13) && !BitAt(w, 14) && (BitAt(w, 15) <==> f.busy)
  }

  /**
   The flags a step left. By the time the next instruction was fetched JUMP had been dropped and COND
   restored if that one was no branch, and BUSY had gone out if the printer's count ran down.
   */
  predicate ShowsFlags(w: nat, left: State, next: bv16) {
    var restored := left.flags.jump && next & 0x1000 == 0;
    ShowsBits(w, left.flags.(jump := left.flags.jump && !restored, cond := left.flags.cond || restored,
                             busy := left.flags.busy && left.prn.busyCycles != 1))
  }

  /** The 16-bit registers; of EXT bits 4 to 11. */
  predicate ShowsWords(f: FrameRec, left: State) {
    && f.kr == left.kr as int && f.sr == left.sr as int && f.fA == left.fa as int && f.fB == left.fb as int
    && f.preg == left.preg as int && f.ext == left.ext as int / 16 % 256
  }

  /** The digit registers, the low nibbles of IO, R5, the digit counter, the latches and the library's pointer. */
  predicate ShowsRegisters(f: FrameRec, left: State) {
    && f.a == left.regs.a && f.b == left.regs.b && f.c == left.regs.c && f.d == left.regs.d && f.e == left.regs.e
    && (forall i :: 0 <= i < 16 ==> f.sout[i] == left.regs.sout[i] % 16) && f.r5 == left.regs.r5 && f.digit == left.digit
    && f.ramAddr == left.mem.ramAddr && f.ramOp == left.mem.ramOp && f.regAddr == left.mem.regAddr
    && f.libAddr == left.lib.addr % 0x10000 && f.libReadPos == left.lib.readPos % 0x100
  }

  /** A loaded frame shows the step from `made`, which left `left`: where it ran, what it took, all it left, and the display then. */
  predicate ShowsStep(f: FrameRec, chip: Chip, made: State, left: State, lit: Display) {
    && f.pc == made.addr as int && f.opcode == chip.rom(made.addr) as int
    && f.cycleWeight == (if left.flags.idle && chip.variant != TI58C then 4 else 1)
    && ShowsWords(f, left) && ShowsRegisters(f, left) && ShowsFlags(f.flags, left, chip.rom(left.addr))
    && f.displayOn == (if lit.on then 1 else 0) && f.maxDigitDecay == lit.positions
  }

  lemma BitsOfWord(f: Flags, n: nat)
    requires n < 16
    ensures BitAt(FlagWord(f), n) <==> FlagBit(f, n)
  {
    hide BitAt, Binary, FlagBit;
    BinaryBits(FlagBits(f), n);
  }

  /** Each flag is at its bit of the flag word. */
  lemma FlagsAtTheirBits(f: Flags)
    ensures ShowsBits(FlagWord(f), f)
  {
    hide BitAt, FlagWord;
    forall n: nat | n < 16 ensures BitAt(FlagWord(f), n) <==> FlagBit(f, n) {
      BitsOfWord(f, n);
    }
  }

  lemma FetchedFlags(chip: Chip, left: State)
    ensures var f, restored := Fetching(chip, left).flags, left.flags.jump && chip.rom(left.addr) & 0x1000 == 0;
            f == left.flags.(jump := left.flags.jump && !restored, cond := left.flags.cond || restored,
                             busy := left.flags.busy && left.prn.busyCycles != 1)
  {
    hide CountedDown;
  }

  lemma FetchedRest(chip: Chip, left: State)
    ensures var t := Fetching(chip, left); t == left.(flags := t.flags, prn := t.prn)
  {
    hide CountedDown;
  }

  lemma RegistersShown(f: Frame, left: State)
    requires f.full == FullOf(left.(flags := f.full.flags)) && f.light.r5 == left.regs.r5 && f.digit == left.digit
    ensures ShowsRegisters(AsWritten(ToRec(f)), left)
  {
    hide FlagWord, ShownExt, Flag;
  }

  lemma FlagsShown(chip: Chip, left: State)
    ensures ShowsFlags(FlagWord(Fetching(chip, left).flags), left, chip.rom(left.addr))
  {
    hide FlagWord, ShowsBits, Fetching;
    FetchedFlags(chip, left);
    FlagsAtTheirBits(Fetching(chip, left).flags);
  }

  /** The record of a frame that holds what its step left shows the step. */
  lemma RecordShowsStep(chip: Chip, f: Frame, made: State, left: State, lit: Display)
    requires IsOf(chip, f, made, left) && Holds(f, Fetching(chip, left)) && f.display == lit
    ensures ShowsStep(AsWritten(ToRec(f)), chip, made, left, lit)
  {
    hide FlagWord, ShowsFlags, ShowsRegisters, Fetching, FlagBits;
    FetchedRest(chip, left);
    RegistersShown(f, left);
    FlagsShown(chip, left);
  }

  function Converted(frames: seq<Frame>): (r: seq<FrameRec>)
    ensures |r| == |frames|
  {
    seq(|frames|, i requires 0 <= i < |frames| => ToRec(frames[i]))
  }

  // ---------------------------------------------------------------- records of a file

  function Frames(rs: seq<Rec>): nat {
    if rs == [] then 0 else (if rs[0].FrameEvent? then 1 else 0) + Frames(rs[1..])
  }

  /** Frames a file reports lost. */
  function Lost(rs: seq<Rec>): nat {
    if rs == [] then 0 else (if rs[0].Gap? then rs[0].lost else 0) + Lost(rs[1..])
  }

  lemma {:induction false} FramesAppend(rs: seq<Rec>, r: Rec)
    ensures Frames(rs + [r]) == Frames(rs) + if r.FrameEvent? then 1 else 0
    ensures Lost(rs + [r]) == Lost(rs) + if r.Gap? then r.lost else 0
  {
    if rs == [] {
      assert rs + [r] == [r];
      assert [r][1..] == [];
    } else {
      FramesAppend(rs[1..], r);
      assert (rs + [r])[1..] == rs[1..] + [r];
    }
  }

  datatype FedTo = FedTo(open: bool, records: seq<Rec>)

  /** An open writer offered frames: it takes them until one fills the file, and ends the session there. */
  function Fed(model: Byte, maxBytes: nat, rs: seq<Rec>, frames: seq<FrameRec>): FedTo
    decreases |frames|
  {
    if frames == [] then FedTo(true, rs)
    else
      var more := rs + [FrameEvent(frames[0])];
      if |FileHeader(model) + Records(more)| < maxBytes then Fed(model, maxBytes, more, frames[1..])
      else FedTo(false, more + [SessionEnd(Frames(more))])
  }

  lemma FedOne(model: Byte, maxBytes: nat, rs: seq<Rec>, f: FrameRec)
    ensures var more := rs + [FrameEvent(f)];
            Fed(model, maxBytes, rs, [f])
            == if |FileHeader(model) + Records(more)| < maxBytes then FedTo(true, more) else FedTo(false, more + [SessionEnd(Frames(more))])
  {
    hide Records, FileHeader, Frames;
    assert [f][1..] == [];
  }

  /** Feeding on: a writer that is still open goes on, a closed one stays as it is. */
  lemma {:induction false} FedFurther(model: Byte, maxBytes: nat, rs: seq<Rec>, frames: seq<FrameRec>, f: FrameRec)
    ensures var to := Fed(model, maxBytes, rs, frames);
            Fed(model, maxBytes, rs, frames + [f]) == if to.open then Fed(model, maxBytes, to.records, [f]) else to
    decreases |frames|
  {
    hide Records, FileHeader, Frames;
    if frames == [] {
      assert frames + [f] == [f];
    } else {
      var more := rs + [FrameEvent(frames[0])];
      assert (frames + [f])[1..] == frames[1..] + [f];
      if |FileHeader(model) + Records(more)| < maxBytes {
        FedFurther(model, maxBytes, more, frames[1..], f);
      }
    }
  }

  function Events(frames: seq<FrameRec>): seq<Rec> {
    seq(|frames|, i requires 0 <= i < |frames| => FrameEvent(frames[i]))
  }

  /** While the file stays under its limit it holds every frame offered, in order. */
  lemma {:induction false} FedAll(model: Byte, maxBytes: nat, rs: seq<Rec>, frames: seq<FrameRec>)
    requires Fed(model, maxBytes, rs, frames).open
    ensures Fed(model, maxBytes, rs, frames).records == rs + Events(frames)
    ensures Frames(Fed(model, maxBytes, rs, frames).records) == Frames(rs) + |frames|
    ensures Lost(Fed(model, maxBytes, rs, frames).records) == Lost(rs)
    decreases |frames|
  {
    hide Records, FileHeader, Frames, Lost;
    if frames == [] {
      assert rs + Events(frames) == rs;
    } else {
      var more := rs + [FrameEvent(frames[0])];
      FramesAppend(rs, FrameEvent(frames[0]));
      FedAll(model, maxBytes, more, frames[1..]);
      assert more + Events(frames[1..]) == rs + Events(frames);
    }
  }


  // ---------------------------------------------------------------- which record stands for which frame

  /** How many frame indices a record accounts for. */
  function Width(r: Rec): nat {
    match r
    case FrameEvent(_) => 1
    case Gap(n) => n
    case _ => 0
  }

  function Span(rs: seq<Rec>): nat {
    if rs == [] then 0 else Span(rs[..|rs| - 1]) + Width(rs[|rs| - 1])
  }

  lemma SpanOne(rs: seq<Rec>, r: Rec)
    ensures Span(rs + [r]) == Span(rs) + Width(r)
  {
    assert (rs + [r])[..|rs|] == rs;
  }

  lemma {:induction false} SpanUpTo(rs: seq<Rec>, i: nat, j: nat)
    requires i <= j <= |rs|
    ensures Span(rs[..i]) <= Span(rs[..j])
  {
    if i < j {
      SpanUpTo(rs, i, j - 1);
      assert rs[..j] == rs[..j - 1] + [rs[j - 1]];
      SpanOne(rs[..j - 1], rs[j - 1]);
    }
  }

  lemma {:induction false} SpanIsFramesAndLost(rs: seq<Rec>)
    ensures Span(rs) == Frames(rs) + Lost(rs)
  {
    hide Frames, Lost;
    if rs == [] {
      NoFrames();
    } else {
      var most, last := rs[..|rs| - 1], rs[|rs| - 1];
      SpanIsFramesAndLost(most);
      assert rs == most + [last];
      FramesAppend(most, last);
    }
  }

  lemma NoFrames()
    ensures Frames([]) == 0 && Lost([]) == 0
  {
  }

  /**
   Every frame the CPU finished, those a capture ahead of its step had overwritten when they were
   drained, and those drained while still the last, before they were patched.
   */
  datatype Story = Story(log: seq<Frame>, spoiled: set<nat>, late: set<nat>)

  /** A written frame is the finished frame `k`: its number and weight always, its address, opcode and all the rest with the exceptions named. */
  predicate Matches(f: FrameRec, k: nat, st: Story) {
    && k < |st.log| && f.seqno == k && f.cycleWeight == LowByte(st.log[k].cycleWeight)
    && (k !in st.spoiled ==> f.pc == st.log[k].pc as int && f.opcode == st.log[k].opcode as int)
    && (k !in st.spoiled && k !in st.late ==> f == ToRec(st.log[k]))
  }

  /** Record by record, from index `since` on: a frame record is the next frame, a gap stands for the next so many. */
  ghost predicate Tells(rs: seq<Rec>, since: nat, st: Story) {
    forall i: nat :: i < |rs| ==> TellsAt(rs, since, st, i)
  }

  predicate TellsAt(rs: seq<Rec>, since: nat, st: Story, i: nat)
    requires i < |rs|
  {
    rs[i].FrameEvent? ==> Matches(rs[i].frame, since + Span(rs[..i]), st)
  }

  lemma TellsOne(rs: seq<Rec>, r: Rec, since: nat, st: Story)
    requires Tells(rs, since, st) && (r.FrameEvent? ==> Matches(r.frame, since + Span(rs), st))
    ensures Tells(rs + [r], since, st) && Span(rs + [r]) == Span(rs) + Width(r)
  {
    hide Matches, Span;
    SpanOne(rs, r);
    forall i: nat | i < |rs + [r]|
      ensures TellsAt(rs + [r], since, st, i)
    {
      assert (rs + [r])[..i] == rs[..i];
      if i == |rs| {
        assert rs[..i] == rs;
      } else {
        assert TellsAt(rs, since, st, i);
      }
    }
  }

  /** Frames offered to a file that tells the story so far: it tells it on, as far as it takes them. */
  lemma {:induction false} FedTells(model: Byte, maxBytes: nat, rs: seq<Rec>, frames: seq<FrameRec>, since: nat, st: Story)
    requires Tells(rs, since, st)
    requires forall j :: 0 <= j < |frames| ==> Matches(frames[j], since + Span(rs) + j, st)
    ensures var fed := Fed(model, maxBytes, rs, frames);
            && Tells(fed.records, since, st) && Span(rs) <= Span(fed.records) <= Span(rs) + |frames|
            && (fed.open ==> Span(fed.records) == Span(rs) + |frames|)
    decreases |frames|
  {
    hide Matches, Span, Tells, Records, FileHeader, Frames;
    if frames != [] {
      var more := rs + [FrameEvent(frames[0])];
      assert Matches(frames[0], since + Span(rs) + 0, st);
      TellsOne(rs, FrameEvent(frames[0]), since, st);
      if |FileHeader(model) + Records(more)| < maxBytes {
        forall j | 0 <= j < |frames[1..]| ensures Matches(frames[1..][j], since + Span(more) + j, st) {
          assert Matches(frames[j + 1], since + Span(rs) + (j + 1), st);
        }
        FedTells(model, maxBytes, more, frames[1..], since, st);
      } else {
        TellsOne(more, SessionEnd(Frames(more)), since, st);
      }
    }
  }

  // ---------------------------------------------------------------- time goes on

  /** Every drained frame that was not the last one has been patched for good. */
  ghost predicate Settled(st: Story, cursor: nat) {
    && cursor <= |st.log|
    && forall k :: 0 <= k < cursor && k !in st.late ==> k + 1 < |st.log|
  }

  /** A later story: the log has grown, the exceptions stand. */
  ghost predicate Continues(st: Story, later: Story) {
    TracedCpu.Grown(st.log, later.log) && st.spoiled <= later.spoiled && st.late <= later.late
  }

  lemma FrameInside(rs: seq<Rec>, i: nat)
    requires i < |rs| && rs[i].FrameEvent?
    ensures Span(rs[..i]) < Span(rs)
  {
    hide Span;
    SpanUpTo(rs, i + 1, |rs|);
    assert rs[..i + 1] == rs[..i] + [rs[i]] && rs[..|rs|] == rs;
    SpanOne(rs[..i], rs[i]);
  }

  lemma MatchLater(f: FrameRec, k: nat, st: Story, later: Story, cursor: nat)
    requires Matches(f, k, st) && k < cursor && Settled(st, cursor) && Continues(st, later)
    ensures Matches(f, k, later)
  {
    hide ToRec, LowByte;
    assert TracedCpu.SameIdentity(later.log[k], st.log[k]);
  }

  lemma SettledLater(st: Story, later: Story, cursor: nat)
    requires Settled(st, cursor) && Continues(st, later)
    ensures Settled(later, cursor)
  {
  }

  lemma TellsLater(rs: seq<Rec>, since: nat, st: Story, later: Story, cursor: nat)
    requires Tells(rs, since, st) && since + Span(rs) <= cursor && Settled(st, cursor) && Continues(st, later)
    ensures Tells(rs, since, later)
  {
    hide Span, Matches, Settled, Continues;
    forall i: nat | i < |rs|
      ensures TellsAt(rs, since, later, i)
    {
      assert TellsAt(rs, since, st, i);
      if rs[i].FrameEvent? {
        FrameInside(rs, i);
        MatchLater(rs[i].frame, since + Span(rs[..i]), st, later, cursor);
      }
    }
  }

  /** A drain adds its exceptions: the overwritten slot, and the last frame if it is drained already. */
  function Drained(st: Story, from: nat, count: nat, overwritten: bool): Story {
    st.(spoiled := st.spoiled + (if overwritten && count > 0 then {from} else {}),
        late := st.late + (if count > 0 && from + count == |st.log| then {|st.log| - 1} else {}))
  }

  lemma DrainedLog(st: Story, from: nat, count: nat, overwritten: bool)
    ensures Drained(st, from, count, overwritten).log == st.log
  {
  }

  lemma DrainContinues(st: Story, from: nat, count: nat, overwritten: bool, cursor: nat)
    requires Settled(st, cursor) && cursor <= from && from + count <= |st.log|
    requires from == cursor || from + 1 < |st.log|
    ensures Continues(st, Drained(st, from, count, overwritten)) && Settled(Drained(st, from, count, overwritten), from + count)
  {
  }

  /**
   A drain, past what was lost: from which index, how many frames, where the ring's head stood, and
   whether a capture had run ahead of its step.
   */
  datatype Drain = Drain(from: nat, count: nat, head: nat, ahead: bool)

  /** The capture has overwritten the first frame: the ring was full. */
  predicate Overwrites(d: Drain) { d.ahead && d.head - d.from == RING_SIZE }

  function WithDrain(st: Story, d: Drain): Story { Drained(st, d.from, d.count, Overwrites(d)) }

  /** Of a full ring captured ahead, a drain's first frame. */
  function SpoiledBy(ds: seq<Drain>): set<nat> {
    set d | d in ds && d.count > 0 && Overwrites(d) :: d.from
  }

  /** The last frame of all when it is drained. */
  function LateBy(ds: seq<Drain>): set<nat> {
    set d | d in ds && d.count > 0 && d.from + d.count == d.head :: d.from + d.count - 1
  }

  ghost predicate DrainOk(d: Drain, start: nat, cursor: nat) {
    start <= d.from && d.from + d.count <= cursor && d.from + d.count <= d.head && d.head - d.from <= RING_SIZE
  }

  /** Drains one after the other, from `start` up to `cursor`. */
  ghost predicate InOrder(ds: seq<Drain>, start: nat, cursor: nat) {
    && start <= cursor && (forall i :: 0 <= i < |ds| ==> DrainOk(ds[i], start, cursor))
    && forall i, j :: 0 <= i < j < |ds| ==> ds[i].from + ds[i].count <= ds[j].from
  }

  /** The exceptions are those of the drains so far, and what was drained before `start`. */
  ghost predicate Exceptions(spoiled: set<nat>, late: set<nat>, before: set<nat>, ds: seq<Drain>, start: nat, cursor: nat) {
    && spoiled == SpoiledBy(ds) && late == before + LateBy(ds) && InOrder(ds, start, cursor)
    && forall k :: k in before ==> k < start
  }

  lemma OneDrain(st: Story, before: set<nat>, ds: seq<Drain>, start: nat, cursor: nat, d: Drain)
    requires Exceptions(st.spoiled, st.late, before, ds, start, cursor)
    requires cursor <= d.from && d.from + d.count <= d.head == |st.log| && d.head - d.from <= RING_SIZE
    ensures var later := WithDrain(st, d);
            Exceptions(later.spoiled, later.late, before, ds + [d], start, d.from + d.count)
  {
    SetsOneMore(ds, d);
    hide SpoiledBy, LateBy;
  }

  lemma SetsOneMore(ds: seq<Drain>, d: Drain)
    ensures SpoiledBy(ds + [d]) == SpoiledBy(ds) + (if d.count > 0 && Overwrites(d) then {d.from} else {})
    ensures LateBy(ds + [d]) == LateBy(ds) + (if d.count > 0 && d.from + d.count == d.head then {d.from + d.count - 1} else {})
  {
  }

  /** The frames of a drain are the finished ones from the cursor on, with the exceptions it adds. */
  lemma DrainMatches(st: Story, out: seq<Frame>, from: nat, slot: Frame, overwritten: bool)
    requires TracedCpu.Numbered(st.log) && TracedCpu.Copies(out, from, st.log, slot, overwritten)
    ensures forall j :: 0 <= j < |out| ==>
              Matches(Converted(out)[j], from + j, Drained(st, from, |out|, overwritten))
  {
  }

  // ---------------------------------------------------------------- loading the file

  /** The counters of the records stay below a bound. */
  predicate Bounded(r: Rec, bound: nat) {
    match r
    case Gap(n) => n <= bound
    case SessionEnd(n) => n <= bound
    case FrameEvent(_) => true
    case _ => FitsRecord(r)
  }

  ghost predicate AllBounded(rs: seq<Rec>, bound: nat) {
    forall i :: 0 <= i < |rs| ==> Bounded(rs[i], bound)
  }

  lemma AllFit(rs: seq<Rec>, since: nat, st: Story, bound: nat)
    requires Tells(rs, since, st) && AllBounded(rs, bound) && bound <= |st.log| < Pow256(4)
    ensures forall r :: r in rs ==> FitsRecord(r)
  {
    hide Span, ToRec, Pow256;
    forall r | r in rs ensures FitsRecord(r) {
      var i :| 0 <= i < |rs| && rs[i] == r;
      assert Bounded(rs[i], bound);
      if r.FrameEvent? {
        assert TellsAt(rs, since, st, i);
      }
    }
  }

  // ---------------------------------------------------------------- a writer over its life

  /**
   What is kept of a file all its life: it tells the story from `since` on, while open up to the
   ring's cursor, once closed up to where it was closed.
   */
  ghost predicate FileKeeps(open: bool, rs: seq<Rec>, since: nat, cursor: nat, st: Story) {
    && Tells(rs, since, st) && AllBounded(rs, cursor)
    && since + Span(rs) <= cursor && (open ==> since + Span(rs) == cursor)
  }

  lemma KeptStart(time: Time, model: Byte, cursor: nat, st: Story)
    ensures FileKeeps(true, [SessionStart(time, Some(model))], cursor, cursor, st)
  {
    var r := SessionStart(time, Some(model));
    TimeFits(time);
    KeptNothing(cursor, cursor, st);
    KeptOne(true, [], r, cursor, cursor, st);
    assert [] + [r] == [r];
  }

  lemma KeptNothing(since: nat, cursor: nat, st: Story)
    requires since <= cursor
    ensures FileKeeps(since == cursor, [], since, cursor, st)
  {
  }

  /** A record that is not a frame: a gap moves the cursor past what it stands for. */
  lemma KeptOne(open: bool, rs: seq<Rec>, r: Rec, since: nat, cursor: nat, st: Story)
    requires FileKeeps(open, rs, since, cursor, st) && !r.FrameEvent? && Bounded(r, cursor + Width(r)) && (r.Gap? ==> open)
    ensures FileKeeps(open, rs + [r], since, cursor + Width(r), st)
  {
    hide Tells, Span, FitsRecord;
    TellsOne(rs, r, since, st);
  }

  lemma KeptEnd(rs: seq<Rec>, since: nat, cursor: nat, st: Story)
    requires FileKeeps(true, rs, since, cursor, st)
    ensures FileKeeps(false, rs + [SessionEnd(Frames(rs))], since, cursor, st)
  {
    hide Tells, Span, Frames, AllBounded;
    SpanIsFramesAndLost(rs);
    KeptOne(true, rs, SessionEnd(Frames(rs)), since, cursor, st);
  }

  lemma KeptLater(open: bool, rs: seq<Rec>, since: nat, cursor: nat, st: Story, later: Story)
    requires FileKeeps(open, rs, since, cursor, st) && Settled(st, cursor) && Continues(st, later)
    ensures FileKeeps(open, rs, since, cursor, later)
  {
    hide Tells, Span, Settled, Continues, AllBounded;
    TellsLater(rs, since, st, later, cursor);
  }

  lemma KeptClosed(rs: seq<Rec>, since: nat, cursor: nat, further: nat, st: Story)
    requires FileKeeps(false, rs, since, cursor, st) && cursor <= further
    ensures FileKeeps(false, rs, since, further, st)
  {
    hide Tells, Span;
  }

  lemma KeptFed(model: Byte, maxBytes: nat, rs: seq<Rec>, frames: seq<FrameRec>, since: nat, cursor: nat, st: Story)
    requires FileKeeps(true, rs, since, cursor, st)
    requires forall j :: 0 <= j < |frames| ==> Matches(frames[j], cursor + j, st)
    ensures var fed := Fed(model, maxBytes, rs, frames);
            FileKeeps(fed.open, fed.records, since, cursor + |frames|, st)
  {
    hide Tells, Span, Matches, Fed, AllBounded;
    FedTells(model, maxBytes, rs, frames, since, st);
    FedBounded(model, maxBytes, rs, frames, since, cursor);
  }

  lemma {:induction false} FedBounded(model: Byte, maxBytes: nat, rs: seq<Rec>, frames: seq<FrameRec>, since: nat, cursor: nat)
    requires AllBounded(rs, cursor) && since + Span(rs) <= cursor
    ensures AllBounded(Fed(model, maxBytes, rs, frames).records, cursor + |frames|)
    decreases |frames|
  {
    hide Span, Records, FileHeader, Frames, FitsRecord;
    if frames != [] {
      var more := rs + [FrameEvent(frames[0])];
      SpanOne(rs, FrameEvent(frames[0]));
      if |FileHeader(model) + Records(more)| < maxBytes {
        FedBounded(model, maxBytes, more, frames[1..], since, cursor + 1);
      } else {
        SpanIsFramesAndLost(more);
      }
    }
  }

  function FramesOf(rs: seq<Rec>): seq<FrameRec> {
    if rs == [] then []
    else
      var last := rs[|rs| - 1];
      FramesOf(rs[..|rs| - 1]) + if last.FrameEvent? then [last.frame] else []
  }

  /** The indices of the frames a file holds, in the order of their records. */
  function Numbers(rs: seq<Rec>, since: nat): seq<nat> {
    if rs == [] then []
    else
      var most := rs[..|rs| - 1];
      Numbers(most, since) + if rs[|rs| - 1].FrameEvent? then [since + Span(most)] else []
  }

  lemma FramesOfOne(rs: seq<Rec>, r: Rec)
    ensures FramesOf(rs + [r]) == FramesOf(rs) + if r.FrameEvent? then [r.frame] else []
  {
    assert (rs + [r])[..|rs|] == rs;
  }

  function ShownRec(r: Rec): seq<Rec> {
    match r
    case Gap(_) => []
    case FrameEvent(f) => [FrameEvent(AsWritten(f))]
    case _ => [r]
  }

  lemma {:induction false} ReadableOne(rs: seq<Rec>, r: Rec)
    ensures Readable(rs + [r]) == Readable(rs) + ShownRec(r)
    decreases |rs|
  {
    hide AsWritten;
    if rs == [] {
      assert rs + [r] == [r] && [r][1..] == [];
    } else {
      ReadableOne(rs[1..], r);
      assert (rs + [r])[1..] == rs[1..] + [r];
    }
  }

  /** What a loaded frame shows of the finished frame `k`. */
  predicate Shows(f: FrameRec, k: nat, st: Story) {
    && k < |st.log| && f.seqno == k && f.cycleWeight == LowByte(st.log[k].cycleWeight)
    && (k !in st.spoiled ==> f.pc == st.log[k].pc as int && f.opcode == st.log[k].opcode as int)
    && (k !in st.spoiled && k !in st.late ==> f == AsWritten(ToRec(st.log[k])))
  }

  /** The loaded frames are the finished frames the file's records stand for, one for one. */
  lemma {:induction false} LoadedShow(rs: seq<Rec>, since: nat, st: Story)
    requires Tells(rs, since, st)
    ensures var fs, ids := FramesOf(Readable(rs)), Numbers(rs, since);
            |fs| == |ids| && forall j :: 0 <= j < |fs| ==> Shows(fs[j], ids[j], st)
    decreases |rs|
  {
    hide Span, ToRec, FramesOf, Readable;
    if rs == [] {
      NothingReadable();
    } else {
      var most, last := rs[..|rs| - 1], rs[|rs| - 1];
      assert rs == most + [last];
      forall i: nat | i < |most| ensures TellsAt(most, since, st, i) {
        assert most[..i] == rs[..i] && TellsAt(rs, since, st, i);
      }
      LoadedShow(most, since, st);
      ReadableOne(most, last);
      if last.FrameEvent? {
        assert TellsAt(rs, since, st, |rs| - 1);
        FramesOfOne(Readable(most), FrameEvent(AsWritten(last.frame)));
      } else if last.Gap? {
        assert Readable(most) + [] == Readable(most);
      } else {
        FramesOfOne(Readable(most), last);
      }
    }
  }

  lemma NothingReadable()
    ensures FramesOf(Readable([])) == []
  {
  }

  lemma {:induction false} NumbersRise(rs: seq<Rec>, since: nat)
    ensures forall j :: 0 <= j < |Numbers(rs, since)| ==> since <= Numbers(rs, since)[j] < since + Span(rs)
    ensures forall i, j :: 0 <= i < j < |Numbers(rs, since)| ==> Numbers(rs, since)[i] < Numbers(rs, since)[j]
    ensures |Numbers(rs, since)| + Lost(rs) == Span(rs)
    decreases |rs|
  {
    hide Lost;
    if rs == [] {
      NoFrames();
    } else {
      var most, last := rs[..|rs| - 1], rs[|rs| - 1];
      assert rs == most + [last];
      FramesAppend(most, last);
      NumbersRise(most, since);
    }
  }

  /** Record `i` accounts for index `k`. */
  ghost predicate Covers(rs: seq<Rec>, since: nat, i: nat, k: nat) {
    i < |rs| && since + Span(rs[..i]) <= k < since + Span(rs[..i + 1])
  }

  /** Every index has one record and only one: it is a frame of the file or lies in one gap. */
  lemma EachOnce(rs: seq<Rec>, since: nat, k: nat) returns (i: nat)
    requires since <= k < since + Span(rs)
    ensures Covers(rs, since, i, k) && forall j: nat :: Covers(rs, since, j, k) ==> j == i
    ensures if k in Numbers(rs, since) then rs[i].FrameEvent? else rs[i].Gap?
  {
    hide Span, Numbers;
    i := Coverer(rs, since, k);
    forall j: nat | Covers(rs, since, j, k) ensures j == i {
      if j < i {
        SpanUpTo(rs, j + 1, i);
      } else if i < j {
        SpanUpTo(rs, i + 1, j);
      }
    }
    NumberOrGap(rs, since, i, k);
  }

  lemma {:induction false} Coverer(rs: seq<Rec>, since: nat, k: nat) returns (i: nat)
    requires since <= k < since + Span(rs)
    ensures Covers(rs, since, i, k)
    decreases |rs|
  {
    assert rs != [];
    var most := rs[..|rs| - 1];
    if k < since + Span(most) {
      i := Coverer(most, since, k);
      assert most[..i] == rs[..i] && most[..i + 1] == rs[..i + 1];
    } else {
      i := |rs| - 1;
      assert rs[..i + 1] == rs;
    }
  }

  lemma {:induction false} NumberOrGap(rs: seq<Rec>, since: nat, i: nat, k: nat)
    requires Covers(rs, since, i, k)
    ensures if k in Numbers(rs, since) then rs[i].FrameEvent? else rs[i].Gap?
    decreases |rs|
  {
    var most, last := rs[..|rs| - 1], rs[|rs| - 1];
    assert rs == most + [last] && rs[..|rs|] == rs;
    SpanOne(rs[..i], rs[i]);
    assert rs[..i + 1] == rs[..i] + [rs[i]];
    NumbersRise(most, since);
    if i < |most| {
      assert most[..i] == rs[..i] && most[..i + 1] == rs[..i + 1];
      SpanUpTo(rs, i + 1, |rs| - 1);
      NumberOrGap(most, since, i, k);
    }
  }
}
