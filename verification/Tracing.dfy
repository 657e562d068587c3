/**
 The trace and debug API of the CPU: the frame ring that stepping fills and a reader
 drains, and the breakpoints. The CPU's own state is the value `cpu`; the methods show
 that tracing never changes what Step and Begin make of it, and what a drain delivers.
 */
module Tracing {
  import opened Words
  import opened Alu
  import opened Core
  import Debugger

  const RING_SIZE := 1024

  datatype TraceFlags = TraceFlags(pc: bool, light: bool, full: bool, breakpoints: bool)

  predicate Enabled(f: TraceFlags) { f.pc || f.light || f.full || f.breakpoints }

  datatype LightRegs = LightRegs(kr: bv16, sr: bv16, fa: bv16, fb: bv16, flags: Flags, r5: Byte)

  datatype FullRegs = FullRegs(
    regs: Registers, scom: ScomRows, ext: bv16, preg: bv16, flags: Flags, libAddr: nat, libReadPos: nat,
    regAddr: Nibble, ramAddr: Byte, ramOp: Nibble)

  /** What the display showed over the last digit revolution: whether anything, and how many positions. */
  datatype Display = Display(on: bool, positions: Byte)

  datatype Frame = Frame(
    seqno: nat, pc: bv16, opcode: bv16, digit: Nibble, postDigit: Nibble, cycleWeight: nat, light: LightRegs, full: FullRegs,
    display: Display)

  function LightOf(s: State): LightRegs {
    LightRegs(s.kr, s.sr, s.fa, s.fb, s.flags, s.regs.r5)
  }

  function FullOf(s: State): FullRegs {
    FullRegs(s.regs, s.mem.scom, s.ext, s.preg, s.flags, s.lib.addr, s.lib.readPos, s.mem.regAddr, s.mem.ramAddr, s.mem.ramOp)
  }

  /** A finished frame brought up to the state its instruction left. */
  function Patched(f: Frame, tf: TraceFlags, s: State, shown: Display): Frame {
    f.(display := shown,
       light := if tf.light || tf.full then LightOf(s) else f.light,
       postDigit := if tf.light || tf.full then s.digit else f.postDigit,
       full := if tf.full then FullOf(s) else f.full,
       digit := if tf.full then s.digit else f.digit)
  }

  /** The slot of the instruction about to run. */
  function Captured(f: Frame, tf: TraceFlags, s: State, opcode: bv16, shown: Display): Frame {
    f.(pc := s.addr, opcode := opcode,
       display := if tf.light || tf.full then shown else f.display,
       light := if tf.light || tf.full then LightOf(s) else f.light,
       full := if tf.full then FullOf(s) else f.full,
       digit := if tf.full then s.digit else f.digit,
       postDigit := if tf.full then s.digit else f.postDigit)
  }

  function Finished(f: Frame, seqno: nat, s: State, weight: nat): Frame {
    f.(seqno := seqno, digit := s.digit, postDigit := s.digit, cycleWeight := weight)
  }

  // ---------------------------------------------------------------- which step a frame is of

  /** A frame is of the step from `s` to `left`: its address, its opcode, and the ticks it took. */
  predicate IsOf(chip: Chip, f: Frame, s: State, left: State) {
    f.pc == s.addr && f.opcode == chip.rom(s.addr) && f.cycleWeight == if left.flags.idle && chip.variant != TI58C then 4 else 1
  }

  /** All a frame holds is the state `t`. */
  predicate Holds(f: Frame, t: State) {
    f.light == LightOf(t) && f.full == FullOf(t) && f.digit == t.digit && f.postDigit == t.digit
  }

  /** A frame just finished: the registers and the display as the instruction found them, the digit as it left it. */
  predicate HoldsFound(f: Frame, found: State, left: State, shown: Display) {
    f.light == LightOf(found) && f.full == FullOf(found) && f.digit == left.digit && f.postDigit == left.digit && f.display == shown
  }

  /** The state the next step fetches in: a printer tick later, and COND restored. */
  function Fetching(chip: Chip, s: State): State { Begin(chip, Countdown(s)) }

  /**
   The steps of the log: the states they were made from and left, the display at the next fetch, and
   those that a fully traced step followed at once.
   */
  datatype Steps = Steps(made: seq<State>, left: seq<State>, lit: seq<Display>, direct: set<nat>)

  function Stepping(chip: Chip): State -> State { s => Step(chip, s) }

  ghost predicate AreSteps(step: State -> State, made: seq<State>, left: seq<State>) {
    |made| == |left| && forall k :: 0 <= k < |made| ==> left[k] == step(made[k])
  }

  lemma OneMoreStep(chip: Chip, made: seq<State>, left: seq<State>, s: State)
    requires AreSteps(Stepping(chip), made, left)
    ensures AreSteps(Stepping(chip), made + [s], left + [Step(chip, s)])
  {
    hide Step;
  }

  /** Every frame is of its step, and holds what the step left if a fully traced one came next. */
  ghost predicate Faithful(chip: Chip, log: seq<Frame>, st: Steps) {
    && |st.made| == |log| == |st.left| == |st.lit|
    && (forall k :: 0 <= k < |log| ==> IsOf(chip, log[k], st.made[k], st.left[k]))
    && (forall k :: k in st.direct ==>
          k < |log| - 1 && Holds(log[k], Fetching(chip, st.left[k])) && log[k].display == st.lit[k])
  }

  /** The CPU is as the last logged step left it, but for a fetch phase. */
  ghost predicate Unmoved(chip: Chip, cpu: State, left: seq<State>) {
    left != [] && (cpu == left[|left| - 1] || cpu == Begin(chip, left[|left| - 1]))
  }

  lemma FaithfulStart(chip: Chip)
    ensures Faithful(chip, [], Steps([], [], [], {})) && AreSteps(Stepping(chip), [], [])
  {
    hide Step, Holds, Fetching, IsOf;
  }

  lemma FaithfulSize(chip: Chip, log: seq<Frame>, st: Steps)
    requires Faithful(chip, log, st)
    ensures |st.made| == |log| == |st.left| == |st.lit|
  {
    hide Holds, Fetching, IsOf;
  }

  lemma FaithfulPatch(chip: Chip, log: seq<Frame>, st: Steps, f: Frame, shown: Display)
    requires Faithful(chip, log, st) && log != [] && TracedCpu.SameIdentity(f, log[|log| - 1])
    ensures Faithful(chip, log[|log| - 1 := f], Relit(st, shown))
  {
    hide Holds, Fetching;
  }

  /** One more frame; a fully traced step right after the last one has made the last one's frame hold what it left. */
  lemma FaithfulNext(chip: Chip, log: seq<Frame>, st: Steps, f: Frame, s: State, left: State, shown: Display, directly: bool)
    requires Faithful(chip, log, st) && IsOf(chip, f, s, left)
    requires directly ==> log != [] && Holds(log[|log| - 1], Fetching(chip, st.left[|log| - 1]))
                          && log[|log| - 1].display == st.lit[|log| - 1]
    ensures Faithful(chip, log + [f], NextSteps(st, s, left, shown, directly))
  {
    hide Holds, Fetching, IsOf;
  }

  /** What the display showed when the last frame was brought up. */
  function Relit(st: Steps, shown: Display): Steps {
    if st.lit == [] then st else st.(lit := st.lit[|st.lit| - 1 := shown])
  }

  function NextSteps(st: Steps, s: State, left: State, shown: Display, directly: bool): Steps {
    Steps(st.made + [s], st.left + [left], st.lit + [shown], st.direct + if directly && |st.made| > 0 then {|st.made| - 1} else {})
  }

  /** Fetching again changes nothing, so the next step fetches in the same state either way. */
  lemma UnmovedFetches(chip: Chip, cpu: State, left: seq<State>)
    requires Unmoved(chip, cpu, left)
    ensures left != [] && Begin(chip, Countdown(cpu)) == Fetching(chip, left[|left| - 1])
    ensures Unmoved(chip, Begin(chip, cpu), left)
  {
    hide Begin, Countdown;
    Debugger.BeginThenCountdown(chip, left[|left| - 1]);
    Debugger.BeginIdempotent(chip, left[|left| - 1]);
  }

  lemma PatchedHolds(f: Frame, tf: TraceFlags, t: State, shown: Display)
    requires tf.full
    ensures Holds(Patched(f, tf, t, shown), t) && Patched(f, tf, t, shown).display == shown
  {
    hide LightOf, FullOf;
  }

  type Word = x: int | 0 <= x < 0x10000

  predicate Sorted(s: seq<Word>) {
    forall i, j :: 0 <= i < j < |s| ==> s[i] < s[j]
  }

  /** Binary search: the first element not below `pc`. */
  method LowerBound(s: seq<Word>, pc: Word) returns (lo: nat)
    requires Sorted(s)
    ensures lo <= |s|
    ensures forall k :: 0 <= k < lo ==> s[k] < pc
    ensures forall k :: lo <= k < |s| ==> pc <= s[k]
  {
    lo := 0;
    var hi := |s|;
    while lo < hi
      invariant lo <= hi <= |s|
      invariant forall k :: 0 <= k < lo ==> s[k] < pc
      invariant forall k :: hi <= k < |s| ==> pc <= s[k]
    {
      var mid := (lo + hi) / 2;
      if s[mid] < pc {
        lo := mid + 1;
      } else {
        hi := mid;
      }
    }
  }

  class TracedCpu {
    const chip: Chip
    var cpu: State
    var traceFlags: TraceFlags
    var breakpoints: seq<Word>
    var breakpointHit: bool
    const frameRing: array<Frame>
    var frameHead: nat
    var diskCursor: nat
    var traceSeqno: nat

    /** Every frame ever finished, and the oldest slot's loss to a capture ahead of its step. */
    ghost var log: seq<Frame>
    ghost var ahead: bool
    /** The indices handed out by drains, in order, and how many frames drains reported lost. */
    ghost var delivered: seq<nat>
    ghost var lostTotal: nat
    /** The steps the frames are of; whether nothing but fetch phases came since the last; whether all were fully traced. */
    ghost var steps: Steps
    ghost var unmoved: bool
    ghost var whole: bool

    ghost predicate Valid()
      reads this, frameRing
    {
      && frameRing.Length == RING_SIZE
      && RingHolds(frameRing[..], log, frameHead, ahead)
      && diskCursor <= frameHead
      && traceSeqno == frameHead && Numbered(log)
      && |delivered| + lostTotal == diskCursor
      && Increasing(delivered, diskCursor)
      && Sorted(breakpoints)
      && Attested()
    }

    /** The frames are of the steps made. */
    ghost predicate Attested()
      reads this`cpu, this`log, this`steps, this`unmoved, this`whole
    {
      AttestedIn(chip, cpu, log, steps, unmoved, whole)
    }

    static ghost predicate AttestedIn(chip: Chip, cpu: State, log: seq<Frame>, steps: Steps, unmoved: bool, whole: bool) {
      && AreSteps(Stepping(chip), steps.made, steps.left) && Faithful(chip, log, steps)
      && (unmoved ==> Unmoved(chip, cpu, steps.left))
      && (whole ==> AllDirect(|log|, steps.direct) && (log != [] ==> unmoved))
    }

    static lemma AttestedSize(chip: Chip, cpu: State, log: seq<Frame>, steps: Steps, unmoved: bool, whole: bool)
      requires AttestedIn(chip, cpu, log, steps, unmoved, whole)
      ensures |steps.made| == |log| == |steps.left| == |steps.lit|
    {
      hide AreSteps, Unmoved, AllDirect, Faithful;
      FaithfulSize(chip, log, steps);
    }

    static lemma AttestedFetch(chip: Chip, cpu: State, log: seq<Frame>, steps: Steps, unmoved: bool, whole: bool)
      requires AttestedIn(chip, cpu, log, steps, unmoved, whole)
      ensures AttestedIn(chip, Begin(chip, cpu), log, steps, unmoved, whole)
    {
      hide AreSteps, Unmoved, AllDirect, Faithful, Begin, Fetching;
      if unmoved {
        UnmovedFetches(chip, cpu, steps.left);
      }
    }

    static lemma AttestedPatch(chip: Chip, cpu: State, log: seq<Frame>, steps: Steps, unmoved: bool, whole: bool, f: Frame, shown: Display)
      requires AttestedIn(chip, cpu, log, steps, unmoved, whole) && log != [] && SameIdentity(f, log[|log| - 1])
      ensures AttestedIn(chip, cpu, log[|log| - 1 := f], Relit(steps, shown), unmoved, whole)
    {
      hide AreSteps, Unmoved, AllDirect, Faithful;
      FaithfulPatch(chip, log, steps, f, shown);
      FaithfulSize(chip, log, steps);
    }

    /** One more step: with tracing full all along, every step is followed by a fully traced one but the last. */
    static lemma AttestedNext(chip: Chip, cpu: State, log: seq<Frame>, steps: Steps, f: Frame, was: State, shown: Display, directly: bool, all: bool)
      requires AttestedIn(chip, cpu, log, steps, false, false) && IsOf(chip, f, was, Step(chip, was))
      requires directly ==> |steps.left| == |steps.lit| == |log| > 0 && Holds(log[|log| - 1], Fetching(chip, steps.left[|log| - 1]))
                            && log[|log| - 1].display == steps.lit[|log| - 1]
      requires all ==> AllDirect(|log|, steps.direct) && (log != [] ==> directly)
      ensures AttestedIn(chip, Step(chip, was), log + [f], NextSteps(steps, was, Step(chip, was), shown, directly), true, all)
    {
      hide AreSteps, Unmoved, Faithful, Begin, Fetching, Step, IsOf, Holds;
      FaithfulSize(chip, log, steps);
      FaithfulNext(chip, log, steps, f, was, Step(chip, was), shown, directly);
      OneMoreStep(chip, steps.made, steps.left, was);
      StepUnmoved(chip, steps, was, Step(chip, was), shown, directly);
    }

    /** The CPU has moved on. */
    static lemma AttestedMoved(chip: Chip, cpu: State, log: seq<Frame>, steps: Steps, unmoved: bool, whole: bool)
      requires AttestedIn(chip, cpu, log, steps, unmoved, whole)
      ensures forall later :: AttestedIn(chip, later, log, steps, false, false)
      ensures whole ==> AllDirect(|log|, steps.direct) && (log != [] ==> unmoved)
    {
      hide AreSteps, Unmoved, Faithful, AllDirect;
    }

    /** What the last step's frame holds once a fully traced fetch has brought it up. */
    static lemma AttestedDirect(chip: Chip, cpu: State, log: seq<Frame>, steps: Steps, unmoved: bool, whole: bool)
      requires AttestedIn(chip, cpu, log, steps, unmoved, whole) && unmoved
      ensures |steps.left| == |log| > 0 && Begin(chip, Countdown(cpu)) == Fetching(chip, steps.left[|log| - 1])
    {
      hide AreSteps, Unmoved, Faithful, AllDirect, Begin, Fetching, Countdown;
      FaithfulSize(chip, log, steps);
      UnmovedFetches(chip, cpu, steps.left);
    }

    static ghost predicate AllDirect(frames: nat, direct: set<nat>) {
      forall k: nat :: k + 1 < frames ==> k in direct
    }

    /**
     What the ring shows: the last 1024 frames, but that a capture ahead of its step has overwritten
     the oldest of them, its number and weight excepted.
     */
    static ghost predicate RingHolds(ring: seq<Frame>, log: seq<Frame>, head: nat, ahead: bool) {
      && |ring| == RING_SIZE && |log| == head
      && (forall k :: 0 <= k < head && head - RING_SIZE <= k && !(ahead && k == head - RING_SIZE) ==> ring[k % RING_SIZE] == log[k])
      && (ahead && head >= RING_SIZE ==> SameNumber(ring[head % RING_SIZE], log[head - RING_SIZE]))
    }

    static ghost predicate SameNumber(f: Frame, g: Frame) { f.seqno == g.seqno && f.cycleWeight == g.cycleWeight }

    /** Frames are numbered in the order they were finished, from 0 on. */
    static ghost predicate Numbered(log: seq<Frame>) {
      forall k :: 0 <= k < |log| ==> log[k].seqno == k
    }

    /** Strictly increasing indices below a bound: nothing twice, nothing out of order. */
    static ghost predicate Increasing(s: seq<nat>, bound: nat) {
      && (forall i, j :: 0 <= i < j < |s| ==> s[i] < s[j])
      && (forall i :: 0 <= i < |s| ==> s[i] < bound)
    }

    constructor (chip: Chip, cpu: State, blank: Frame)
      ensures Valid() && fresh(frameRing)
      ensures this.chip == chip && this.cpu == cpu && log == [] && delivered == [] && lostTotal == 0
      ensures steps == Steps([], [], [], {}) && whole && !unmoved
    {
      FaithfulStart(chip);
      this.chip, this.cpu := chip, cpu;
      traceFlags := TraceFlags(false, false, false, false);
      breakpoints, breakpointHit := [], false;
      frameRing := new Frame[RING_SIZE](_ => blank);
      frameHead, diskCursor, traceSeqno := 0, 0, 0;
      log, ahead, delivered, lostTotal := [], false, [], 0;
      steps, unmoved, whole := Steps([], [], [], {}), false, true;
    }

    method SetTraceFlags(f: TraceFlags)
      requires Valid()
      modifies `traceFlags
      ensures Valid() && traceFlags == f
    {
      hide TracedCpu.Attested;
      traceFlags := f;
    }

    method AddBreakpoint(pc: Word)
      requires Valid()
      modifies `breakpoints
      ensures Valid()
      ensures forall b :: b in breakpoints <==> b in old(breakpoints) || b == pc
    {
      hide TracedCpu.Attested;
      var it := LowerBound(breakpoints, pc);
      if it == |breakpoints| || breakpoints[it] != pc {
        breakpoints := breakpoints[..it] + [pc] + breakpoints[it..];
      }
    }

    method RemoveBreakpoint(pc: Word)
      requires Valid()
      modifies `breakpoints
      ensures Valid()
      ensures forall b :: b in breakpoints <==> b in old(breakpoints) && b != pc
    {
      hide TracedCpu.Attested;
      var it := LowerBound(breakpoints, pc);
      if it < |breakpoints| && breakpoints[it] == pc {
        breakpoints := breakpoints[..it] + breakpoints[it + 1..];
      }
    }

    method ClearBreakpoints()
      requires Valid()
      modifies `breakpoints
      ensures Valid() && breakpoints == []
    {
      hide TracedCpu.Attested;
      breakpoints := [];
    }

    method ConsumeBreakpointHit() returns (hit: bool)
      requires Valid()
      modifies `breakpointHit
      ensures Valid() && hit == old(breakpointHit) && !breakpointHit
    {
      hide TracedCpu.Attested;
      hit := breakpointHit;
      breakpointHit := false;
    }

    static lemma PatchHolds(ring: seq<Frame>, log: seq<Frame>, head: nat, ahead: bool, f: Frame)
      requires RingHolds(ring, log, head, ahead) && head > 0
      ensures ring[(head - 1) % RING_SIZE] == log[head - 1]
      ensures RingHolds(ring[(head - 1) % RING_SIZE := f], log[head - 1 := f], head, ahead)
    {
    }

    static lemma CaptureHolds(ring: seq<Frame>, log: seq<Frame>, head: nat, ahead: bool, f: Frame)
      requires RingHolds(ring, log, head, ahead) && SameNumber(f, ring[head % RING_SIZE])
      ensures RingHolds(ring[head % RING_SIZE := f], log, head, true)
    {
    }

    static lemma FinishHolds(ring: seq<Frame>, log: seq<Frame>, head: nat, ahead: bool, f: Frame)
      requires RingHolds(ring, log, head, ahead)
      ensures RingHolds(ring[head % RING_SIZE := f], log + [f], head + 1, false)
    {
    }

    /** A later log: frames keep their identity, and only the last may still have been patched. */
    static ghost predicate Grown(before: seq<Frame>, after: seq<Frame>) {
      && |before| <= |after|
      && (forall k :: 0 <= k < |before| ==> SameIdentity(after[k], before[k]))
      && (forall k :: 0 <= k < |before| - 1 ==> after[k] == before[k])
    }

    static lemma StaysGrown(log: seq<Frame>)
      ensures Grown(log, log)
    {
    }

    static lemma PatchGrows(log: seq<Frame>, f: Frame)
      requires log != [] && SameIdentity(f, log[|log| - 1])
      ensures Grown(log, log[|log| - 1 := f])
    {
    }

    static lemma FinishGrows(before: seq<Frame>, after: seq<Frame>, f: Frame)
      requires Grown(before, after)
      ensures Grown(before, after + [f])
    {
    }

    static lemma NumberKept(log: seq<Frame>, k: nat, f: Frame)
      requires Numbered(log) && k < |log| && f.seqno == log[k].seqno
      ensures Numbered(log[k := f])
    {
    }

    static lemma NumberNext(log: seq<Frame>, f: Frame)
      requires Numbered(log) && f.seqno == |log|
      ensures Numbered(log + [f])
    {
    }

    static lemma RingSize(ring: seq<Frame>, log: seq<Frame>, head: nat, ahead: bool)
      requires RingHolds(ring, log, head, ahead)
      ensures |ring| == RING_SIZE && |log| == head
    {
    }

    /** The last finished frame is brought up to the state its instruction left. */
    method PatchLast(tf: TraceFlags, shown: Display)
      requires Valid()
      modifies `log, `steps, frameRing
      ensures Valid()
      ensures log == if Enabled(tf) && frameHead > 0
                     then old(log)[frameHead - 1 := Patched(old(log)[frameHead - 1], tf, cpu, shown)] else old(log)
      ensures steps == if Enabled(tf) then Relit(old(steps), shown) else old(steps)
      ensures tf.full && frameHead > 0 ==> Holds(log[frameHead - 1], cpu) && log[frameHead - 1].display == shown
      ensures Grown(old(log), log) && |log| == frameHead
      ensures !Enabled(tf) ==> frameRing[..] == old(frameRing[..])
    {
      hide RingHolds, Increasing, Sorted, Patched, Numbered, Grown, TracedCpu.AttestedIn, Holds;
      RingSize(frameRing[..], log, frameHead, ahead);
      StaysGrown(log);
      AttestedSize(chip, cpu, log, steps, unmoved, whole);
      if Enabled(tf) && frameHead > 0 {
        var last := (frameHead - 1) % RING_SIZE;
        if tf.full {
          PatchedHolds(frameRing[last], tf, cpu, shown);
        }
        PatchHolds(frameRing[..], log, frameHead, ahead, Patched(frameRing[last], tf, cpu, shown));
        PatchedIdentity(frameRing[last], tf, cpu, shown);
        PatchGrows(log, Patched(frameRing[last], tf, cpu, shown));
        NumberKept(log, frameHead - 1, Patched(frameRing[last], tf, cpu, shown));
        AttestedPatch(chip, cpu, log, steps, unmoved, whole, Patched(frameRing[last], tf, cpu, shown), shown);
        frameRing[last] := Patched(frameRing[last], tf, cpu, shown);
        log, steps := log[frameHead - 1 := frameRing[last]], Relit(steps, shown);
      }
    }

    /** The fetch phase: COND's auto-restore, the last frame patched, the next one captured. */
    method BeginNextStep(shown: Display)
      requires Valid()
      modifies `cpu, `breakpointHit, `log, `ahead, `steps, frameRing
      ensures Valid()
      ensures cpu == Begin(chip, old(cpu))
      ensures steps == if Enabled(traceFlags) then Relit(old(steps), shown) else old(steps)
      ensures traceFlags.full && frameHead > 0 ==> Holds(log[frameHead - 1], cpu) && log[frameHead - 1].display == shown
      ensures log == if Enabled(traceFlags) && frameHead > 0
                     then old(log)[frameHead - 1 := Patched(old(log)[frameHead - 1], traceFlags, cpu, shown)] else old(log)
      ensures Grown(old(log), log) && |log| == frameHead
      ensures !Enabled(traceFlags) ==> frameRing[..] == old(frameRing[..])
      ensures ahead == (old(ahead) || Enabled(traceFlags))
      ensures var f := frameRing[frameHead % RING_SIZE];
              && (Enabled(traceFlags) ==> f.pc == cpu.addr && f.opcode == chip.rom(cpu.addr))
              && (traceFlags.full ==> f.full == FullOf(cpu))
              && (traceFlags.full || traceFlags.light ==> f.light == LightOf(cpu) && f.display == shown)
      ensures breakpointHit == (old(breakpointHit) || (traceFlags.breakpoints && cpu.addr as Word in breakpoints))
    {
      hide Restore, Begin, Patched, Captured, RingHolds, Increasing, Sorted, Numbered, Grown, TracedCpu.AttestedIn, Holds, LightOf, FullOf;
      RingSize(frameRing[..], log, frameHead, ahead);
      FetchIsRestore(chip, cpu);
      AttestedFetch(chip, cpu, log, steps, unmoved, whole);
      var tf := traceFlags;
      var opcode := chip.rom(cpu.addr);
      cpu := Restore(cpu, opcode);
      PatchLast(tf, shown);
      CapturedIdentity(frameRing[frameHead % RING_SIZE], tf, cpu, opcode, shown);
      if Enabled(tf) {
        TracePreStep(tf, opcode, shown);
      }
    }

    static lemma FetchIsRestore(chip: Chip, s: State)
      ensures Begin(chip, s) == Restore(s, chip.rom(s.addr)) && Begin(chip, s).addr == s.addr
    {
    }

    static lemma CapturedIdentity(f: Frame, tf: TraceFlags, s: State, opcode: bv16, shown: Display)
      ensures var g := Captured(f, tf, s, opcode, shown); g.pc == s.addr && g.opcode == opcode && SameNumber(g, f)
      ensures tf.full ==> Captured(f, tf, s, opcode, shown).full == FullOf(s)
      ensures tf.full || tf.light ==> var g := Captured(f, tf, s, opcode, shown); g.light == LightOf(s) && g.display == shown
    {
    }

    method TracePreStep(tf: TraceFlags, opcode: bv16, shown: Display)
      requires Valid()
      modifies `breakpointHit, `ahead, frameRing
      ensures Valid() && ahead
      ensures frameRing[..] == old(frameRing[..])[frameHead % RING_SIZE := Captured(old(frameRing[frameHead % RING_SIZE]), tf, cpu, opcode, shown)]
      ensures breakpointHit == (old(breakpointHit) || (tf.breakpoints && cpu.addr as Word in breakpoints))
    {
      hide RingHolds, Increasing, Captured, Numbered, TracedCpu.AttestedIn, LightOf, FullOf;
      if tf.breakpoints && |breakpoints| > 0 {
        var it := LowerBound(breakpoints, cpu.addr as Word);
        if it < |breakpoints| && breakpoints[it] == cpu.addr as Word {
          breakpointHit := true;
        }
      }
      var slot := frameHead % RING_SIZE;
      CapturedIdentity(frameRing[slot], tf, cpu, opcode, shown);
      CaptureHolds(frameRing[..], log, frameHead, ahead, Captured(frameRing[slot], tf, cpu, opcode, shown));
      frameRing[slot] := Captured(frameRing[slot], tf, cpu, opcode, shown);
      ahead := true;
    }

    /** The slot becomes the frame of the step from `was`; a fully traced step right after it settles the frame before. */
    method TracePostStep(weight: nat, ghost was: State, ghost shown: Display, ghost directly: bool, ghost all: bool)
      requires Valid() && !unmoved && !whole && cpu == Step(chip, was) && weight == Weight(chip, cpu)
      requires frameRing[frameHead % RING_SIZE].pc == was.addr && frameRing[frameHead % RING_SIZE].opcode == chip.rom(was.addr)
      requires directly ==> |steps.left| == |steps.lit| == |log| > 0
                            && Holds(log[|log| - 1], Fetching(chip, steps.left[|log| - 1]))
                            && log[|log| - 1].display == steps.lit[|log| - 1]
      requires all ==> AllDirect(|log|, steps.direct) && (log != [] ==> directly)
      modifies `log, `ahead, `frameHead, `traceSeqno, `steps, `unmoved, `whole, frameRing
      ensures Valid() && !ahead && frameHead == old(frameHead) + 1 && traceSeqno == old(traceSeqno) + 1
      ensures log == old(log) + [Finished(old(frameRing[frameHead % RING_SIZE]), old(traceSeqno), cpu, weight)] && |log| == frameHead
      ensures steps == NextSteps(old(steps), was, cpu, shown, directly) && unmoved && whole == all
    {
      hide RingHolds, Increasing, Sorted, Finished, Numbered, TracedCpu.AttestedIn, Holds, Fetching, Step, IsOf, Weight, NextSteps, AllDirect;
      var slot := frameHead % RING_SIZE;
      ghost var f := Finished(frameRing[slot], traceSeqno, cpu, weight);
      RingSize(frameRing[..], log, frameHead, ahead);
      FinishedIdentity(frameRing[slot], traceSeqno, cpu, weight);
      NumberNext(log, f);
      FinishHolds(frameRing[..], log, frameHead, ahead, f);
      FinishedIsOf(chip, frameRing[slot], traceSeqno, was, cpu, weight);
      AttestedNext(chip, cpu, log, steps, f, was, shown, directly, all);
      frameRing[slot] := Finished(frameRing[slot], traceSeqno, cpu, weight);
      traceSeqno := traceSeqno + 1;
      log := log + [frameRing[slot]];
      frameHead := frameHead + 1;
      ahead, unmoved, whole := false, true, all;
      steps := NextSteps(steps, was, cpu, shown, directly);
    }

    static lemma FinishedIsOf(chip: Chip, f: Frame, seqno: nat, was: State, left: State, weight: nat)
      requires f.pc == was.addr && f.opcode == chip.rom(was.addr) && weight == Weight(chip, left)
      ensures IsOf(chip, Finished(f, seqno, left, weight), was, left)
    {
    }

    static lemma StepUnmoved(chip: Chip, st: Steps, was: State, left: State, shown: Display, directly: bool)
      ensures var later := NextSteps(st, was, left, shown, directly);
              Unmoved(chip, left, later.left) && later.made == st.made + [was] && later.left == st.left + [left]
    {
      hide Begin;
    }

    static lemma FinishedFound(f: Frame, seqno: nat, found: State, left: State, weight: nat, shown: Display)
      requires f.light == LightOf(found) && f.full == FullOf(found) && f.display == shown
      ensures HoldsFound(Finished(f, seqno, left, weight), found, left, shown)
    {
      hide LightOf, FullOf;
    }

    static lemma FetchingIs(chip: Chip, s: State)
      ensures Fetching(chip, s) == Begin(chip, Countdown(s))
    {
      hide Begin, Countdown;
    }

    static lemma FetchAddress(chip: Chip, s: State)
      ensures Countdown(s).addr == s.addr && Begin(chip, Countdown(s)).addr == s.addr
    {
    }

    static lemma StepIs(chip: Chip, s: State)
      ensures Countdown(s).addr == s.addr && Begin(chip, Countdown(s)).addr == s.addr
      ensures Step(chip, s) == Perform(chip, Begin(chip, Countdown(s)), chip.rom(s.addr))
    {
      hide Perform, Weight;
    }

    static lemma PatchedIdentity(f: Frame, tf: TraceFlags, s: State, shown: Display)
      ensures SameIdentity(Patched(f, tf, s, shown), f)
    {
    }

    static lemma FinishedIdentity(f: Frame, seqno: nat, s: State, weight: nat)
      ensures var g := Finished(f, seqno, s, weight);
              g.seqno == seqno && g.cycleWeight == weight && g.pc == f.pc && g.opcode == f.opcode
    {
    }

    /**
     One instruction; with tracing on it leaves exactly one more frame, for the opcode it ran. Fully
     traced and right after the last traced step, it settles that step's frame: see `Faithful`.
     */
    method RunStep(shown: Display) returns (weight: nat)
      requires Valid()
      modifies `cpu, `breakpointHit, `log, `ahead, `frameHead, `traceSeqno, `steps, `unmoved, `whole, frameRing
      ensures Valid()
      ensures frameHead == old(frameHead) + if Enabled(traceFlags) then 1 else 0
      ensures Grown(old(log), log) && |log| == frameHead
      ensures !Enabled(traceFlags) ==> log == old(log) && frameRing[..] == old(frameRing[..]) && ahead == old(ahead)
      ensures Enabled(traceFlags) ==>
                var f := log[old(frameHead)];
                f.seqno == old(traceSeqno) && f.pc == old(cpu).addr && f.opcode == chip.rom(old(cpu).addr) && f.cycleWeight == weight
      ensures traceFlags.full ==> HoldsFound(log[old(frameHead)], Fetching(chip, old(cpu)), cpu, shown)
      ensures cpu == Step(chip, old(cpu)) && weight == Weight(chip, cpu)
      ensures steps == if Enabled(traceFlags)
                       then NextSteps(Relit(old(steps), shown), old(cpu), cpu, shown, traceFlags.full && old(unmoved)) else old(steps)
      ensures unmoved == Enabled(traceFlags) && whole == (old(whole) && traceFlags.full)
    {
      hide Begin, Countdown, Perform, Step, Weight, Finished, Numbered, Grown, TracedCpu.Valid, TracedCpu.AttestedIn, Holds,
           HoldsFound, LightOf, FullOf, Fetching, AllDirect, Relit, NextSteps;
      StepIs(chip, cpu);
      FetchingIs(chip, cpu);
      Sizes();
      var tf := traceFlags;
      ghost var was, directly := cpu, unmoved && tf.full;
      ghost var all := whole && tf.full;
      TickAndFetch(shown);
      ghost var found, slot := cpu, frameRing[frameHead % RING_SIZE];
      label fetched:
      cpu := Perform(chip, cpu, chip.rom(cpu.addr));
      MovedOn@fetched();
      weight := Weight(chip, cpu);
      if Enabled(tf) {
        FinishedIdentity(slot, traceSeqno, cpu, weight);
        FinishGrows(old(log), log, Finished(slot, traceSeqno, cpu, weight));
        if tf.full {
          FinishedFound(slot, traceSeqno, found, cpu, weight, shown);
        }
        TracePostStep(weight, was, shown, directly, all);
      }
    }

    lemma Sizes()
      requires Valid()
      ensures frameRing.Length == RING_SIZE && |log| == frameHead == |steps.made| == |steps.left| == |steps.lit| && traceSeqno == frameHead
      ensures unmoved ==> frameHead > 0 && Begin(chip, Countdown(cpu)) == Fetching(chip, steps.left[frameHead - 1])
      ensures whole ==> AllDirect(frameHead, steps.direct) && (frameHead > 0 ==> unmoved)
    {
      hide Increasing, Sorted, Numbered, TracedCpu.AttestedIn, AllDirect, Begin, Countdown, Fetching;
      AttestedSize(chip, cpu, log, steps, unmoved, whole);
      if unmoved {
        AttestedDirect(chip, cpu, log, steps, unmoved, whole);
      }
      AttestedMoved(chip, cpu, log, steps, unmoved, whole);
    }

    /** The CPU has moved on from where the last step left it. */
    twostate lemma MovedOn()
      requires old(Valid()) && !unmoved && !whole
      requires unchanged(`log, `ahead, `frameHead, `diskCursor, `traceSeqno, `delivered, `lostTotal, `breakpoints, `steps)
      requires old(allocated(frameRing)) && unchanged(frameRing)
      ensures Valid()
    {
      hide RingHolds, Increasing, Sorted, Numbered, TracedCpu.AttestedIn;
      assert frameRing[..] == old(frameRing[..]);
      AttestedMoved(chip, old(cpu), log, steps, old(unmoved), old(whole));
      assert AttestedIn(chip, cpu, log, steps, false, false);
    }

    /** The printer's tick and the fetch phase: what was true of the CPU's place so far is used up. */
    method TickAndFetch(shown: Display)
      requires Valid()
      modifies `cpu, `breakpointHit, `log, `ahead, `steps, `unmoved, `whole, frameRing
      ensures Valid() && !unmoved && !whole && cpu == Begin(chip, Countdown(old(cpu))) && chip.rom(cpu.addr) == chip.rom(old(cpu.addr))
      ensures Grown(old(log), log) && |log| == frameHead
      ensures Enabled(traceFlags) || log == old(log)
      ensures !Enabled(traceFlags) ==> frameRing[..] == old(frameRing[..]) && ahead == old(ahead)
      ensures steps == if Enabled(traceFlags) then Relit(old(steps), shown) else old(steps)
      ensures |steps.made| == |steps.left| == |steps.lit| == frameHead
      ensures var f := frameRing[frameHead % RING_SIZE];
              && (Enabled(traceFlags) ==> f.pc == old(cpu.addr) && f.opcode == chip.rom(old(cpu.addr)))
              && (traceFlags.full ==> f.full == FullOf(cpu))
              && (traceFlags.full || traceFlags.light ==> f.light == LightOf(cpu) && f.display == shown)
      ensures traceFlags.full && old(unmoved) ==>
                frameHead > 0 && Holds(log[frameHead - 1], Fetching(chip, steps.left[frameHead - 1]))
                && log[frameHead - 1].display == steps.lit[frameHead - 1]
      ensures old(whole) ==> AllDirect(frameHead, steps.direct) && (frameHead > 0 ==> old(unmoved))
    {
      hide Begin, Countdown, Patched, Numbered, Grown, TracedCpu.Valid, TracedCpu.AttestedIn, Holds, LightOf, FullOf, Fetching, AllDirect;
      FetchAddress(chip, cpu);
      Sizes();
      label start:
      unmoved, whole, cpu := false, false, Countdown(cpu);
      MovedOn@start();
      BeginNextStep(shown);
      Sizes();
      assert steps.direct == old(steps.direct) && steps.left == old(steps.left);
    }

    static ghost predicate SameIdentity(f: Frame, g: Frame) {
      f.seqno == g.seqno && f.pc == g.pc && f.opcode == g.opcode && f.cycleWeight == g.cycleWeight
    }

    static ghost function Indices(from: nat, count: nat): (r: seq<nat>)
      ensures |r| == count
    {
      seq(count, i => from + i)
    }

    static lemma Extends(s: seq<nat>, bound: nat, from: nat, count: nat)
      requires Increasing(s, bound) && bound <= from
      ensures Increasing(s + Indices(from, count), from + count)
      ensures count == 0 ==> s + Indices(from, count) == s
    {
    }

    /** The logged frames from `from` on, but for an overwritten first one, which is what its slot holds. */
    static ghost predicate Copies(out: seq<Frame>, from: nat, log: seq<Frame>, slot: Frame, overwritten: bool) {
      && from + |out| <= |log|
      && (out != [] ==> out[0] == slot && SameNumber(out[0], log[from]))
      && (forall i :: 0 <= i < |out| && !(overwritten && i == 0) ==> out[i] == log[from + i])
    }

    static lemma CopiesNothing(from: nat, log: seq<Frame>, slot: Frame, overwritten: bool)
      ensures from <= |log| ==> Copies([], from, log, slot, overwritten)
    {
    }

    /** `count` waiting frames, oldest first. */
    method CopyFrames(count: nat) returns (out: seq<Frame>)
      requires RingHolds(frameRing[..], log, frameHead, ahead)
      requires frameHead - diskCursor <= RING_SIZE && diskCursor + count <= frameHead
      ensures |out| == count && Copies(out, diskCursor, log, frameRing[diskCursor % RING_SIZE], ahead && frameHead - diskCursor == RING_SIZE)
    {
      out := [];
      for i := 0 to count
        invariant |out| == i
        invariant forall k :: 0 <= k < i ==> out[k] == frameRing[(diskCursor + k) % RING_SIZE]
      {
        out := out + [frameRing[(diskCursor + i) % RING_SIZE]];
      }
      assert forall k :: 0 <= k < count && !(ahead && diskCursor + k + RING_SIZE == frameHead) ==> out[k] == log[diskCursor + k];
    }

    /** Past what the ring no longer holds. */
    method SkipOverwritten() returns (lost: nat)
      requires diskCursor <= frameHead
      modifies `diskCursor, `lostTotal
      ensures lost == if frameHead - old(diskCursor) <= RING_SIZE then 0 else frameHead - old(diskCursor) - RING_SIZE
      ensures diskCursor == old(diskCursor) + lost && lostTotal == old(lostTotal) + lost
    {
      lost := 0;
      if frameHead - diskCursor > RING_SIZE {
        lost := (frameHead - diskCursor) - RING_SIZE;
        diskCursor := frameHead - RING_SIZE;
        lostTotal := lostTotal + lost;
      }
    }

    /**
     Up to `max` frames from the cursor on. What was overwritten is skipped and counted. The
     frames are the logged ones, except that a capture ahead of its step has already taken
     the slot of the oldest of 1024 waiting frames.
     */
    method DrainCpuFrames(max: nat) returns (out: seq<Frame>, lost: nat)
      requires Valid()
      modifies `diskCursor, `delivered, `lostTotal
      ensures Valid()
      ensures lost == if max == 0 || frameHead - old(diskCursor) <= RING_SIZE then 0 else frameHead - old(diskCursor) - RING_SIZE
      ensures var from := old(diskCursor) + lost;
              && |out| == (if frameHead - from < max then frameHead - from else max)
              && diskCursor == from + |out|
              && delivered == old(delivered) + Indices(from, |out|)
              && lostTotal == old(lostTotal) + lost
              && Copies(out, from, log, frameRing[from % RING_SIZE], ahead && frameHead - from == RING_SIZE)
    {
      hide Increasing, RingHolds, Indices, Numbered, Copies, Sorted, TracedCpu.Attested;
      RingSize(frameRing[..], log, frameHead, ahead);
      out, lost := [], 0;
      CopiesNothing(diskCursor, log, frameRing[diskCursor % RING_SIZE], ahead && frameHead - diskCursor == RING_SIZE);
      Extends(delivered, diskCursor, diskCursor, 0);
      if max == 0 {
        return;
      }
      ghost var was := diskCursor;
      lost := SkipOverwritten();
      var available := frameHead - diskCursor;
      var count := if available < max then available else max;
      out := CopyFrames(count);
      Extends(delivered, was, diskCursor, count);
      delivered := delivered + Indices(diskCursor, count);
      diskCursor := diskCursor + count;
    }
  }

  /**
   The one frame a drain can spoil: with 1024 frames waiting, a fetch phase run ahead of its
   step puts the upcoming instruction's address into the oldest of them.
   */
  method CaptureTakesOldest(t: TracedCpu, shown: Display) returns (out: seq<Frame>)
    requires t.Valid() && Enabled(t.traceFlags) && t.frameHead - t.diskCursor == RING_SIZE
    requires t.log[t.diskCursor].pc != t.cpu.addr
    modifies t, t.frameRing
    ensures |out| == 1 && out[0].pc == old(t.cpu.addr) && out[0].pc != old(t.log[t.diskCursor]).pc
  {
    hide Begin, Patched, TracedCpu.RingHolds, TracedCpu.Increasing, TracedCpu.Indices, TracedCpu.Numbered, TracedCpu.Attested, Holds, LightOf, FullOf, Sorted;
    TracedCpu.RingSize(t.frameRing[..], t.log, t.frameHead, t.ahead);
    FetchKeepsAddress(t.chip, t.cpu);
    SameSlot(t.diskCursor, t.frameHead);
    t.BeginNextStep(shown);
    TracedCpu.RingSize(t.frameRing[..], t.log, t.frameHead, t.ahead);
    var lost;
    out, lost := t.DrainCpuFrames(1);
  }

  lemma SameSlot(oldest: nat, head: nat)
    requires head == oldest + RING_SIZE
    ensures head % RING_SIZE == oldest % RING_SIZE
  {
  }

  lemma FetchKeepsAddress(chip: Chip, s: State)
    ensures Begin(chip, s).addr == s.addr
  {
  }
}
