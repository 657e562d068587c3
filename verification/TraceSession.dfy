/**
 From the ring to the file: the trace writer with its size limit, and the session that
 drains the ring into the open writers.
 */
module TraceSession {
  import opened Words
  import opened Core
  import opened Tracing
  import opened TraceFile
  import opened TraceAccount

  const DRAIN_BUFFER := 1024

  class TraceWriter {
    const model: Byte
    var isOpen: bool
    var file: seq<Byte>
    var bytesWritten: nat
    var maxBytes: nat
    var eventCount: nat
    /** The records of the file, the abstract contents. */
    ghost var records: seq<Rec>

    ghost predicate Valid()
      reads this
    {
      && (file == [] ==> records == [] && !isOpen)
      && (file != [] ==> file == FileHeader(model) + Records(records))
      && (isOpen ==> bytesWritten == |file| && eventCount == Frames(records))
    }

    constructor (model: Byte)
      ensures Valid() && !isOpen && records == [] && this.model == model
    {
      this.model, isOpen, file, bytesWritten, maxBytes, eventCount, records := model, false, [], 0, 0, 0, [];
    }

    /** One record at the end of the file. */
    method Append(r: Rec)
      requires file != [] && file == FileHeader(model) + Records(records) && bytesWritten == |file|
      modifies `file, `bytesWritten, `records
      ensures file == FileHeader(model) + Records(records) && file != [] && bytesWritten == |file|
      ensures records == old(records) + [r]
    {
      hide Record, Records, FileHeader;
      RecordsAppend(records, r);
      file := file + Record(r);
      bytesWritten := bytesWritten + |Record(r)|;
      records := records + [r];
      assert FileHeader(model) + (Records(old(records)) + Record(r)) == (FileHeader(model) + Records(old(records))) + Record(r);
    }

    /** A fresh file; a writer already open goes on. `created` is whether the file could be made. */
    method Open(created: bool, timestamp: Time, maxBytes: nat) returns (ok: bool)
      requires Valid()
      modifies this
      ensures Valid()
      ensures old(isOpen) ==> ok && isOpen && records == old(records)
      ensures !old(isOpen) ==> ok == created && isOpen == created && (!created ==> records == old(records))
      ensures !old(isOpen) && created ==> records == [SessionStart(timestamp, Some(model))] && this.maxBytes == maxBytes
    {
      if isOpen {
        return true;
      }
      if !created {
        return false;
      }
      this.maxBytes, eventCount := maxBytes, 0;
      file, records := FileHeader(model), [];
      bytesWritten := |file|;
      isOpen := true;
      assert file == FileHeader(model) + Records(records);
      Append(SessionStart(timestamp, Some(model)));
      assert Frames(records) == 0 by {
        FramesAppend([], SessionStart(timestamp, Some(model)));
      }
      ok := true;
    }

    method Close()
      requires Valid()
      modifies `isOpen, `file, `bytesWritten, `records
      ensures Valid() && !isOpen
      ensures records == if old(isOpen) then old(records) + [SessionEnd(eventCount)] else old(records)
    {
      if isOpen {
        Append(SessionEnd(eventCount));
        isOpen := false;
      }
    }

    /** A frame record; false when it made the file reach its limit, which closes it. */
    method Write(f: FrameRec) returns (ok: bool)
      requires Valid()
      modifies `isOpen, `file, `bytesWritten, `records, `eventCount
      ensures Valid()
      ensures !old(isOpen) ==> ok && !isOpen && records == old(records)
      ensures old(isOpen) ==> ok == isOpen && Fed(model, maxBytes, old(records), [f]) == FedTo(isOpen, records)
    {
      if !isOpen {
        return true;
      }
      FramesAppend(records, FrameEvent(f));
      Append(FrameEvent(f));
      eventCount := eventCount + 1;
      FedOne(model, maxBytes, old(records), f);
      if bytesWritten >= maxBytes {
        Close();
        return false;
      }
      ok := true;
    }

    /** A key or card event of the user's. */
    method WriteUserEvent(kind: Byte, row: Byte, col: Byte)
      requires Valid()
      modifies `file, `bytesWritten, `records
      ensures Valid()
      ensures records == if isOpen then old(records) + [UserEvent(kind, row, col)] else old(records)
    {
      if isOpen {
        FramesAppend(records, UserEvent(kind, row, col));
        Append(UserEvent(kind, row, col));
      }
    }

    method WriteLostGap(count: nat)
      requires Valid()
      modifies `file, `bytesWritten, `records
      ensures Valid()
      ensures records == if isOpen then old(records) + [Gap(count)] else old(records)
    {
      if isOpen {
        FramesAppend(records, Gap(count));
        Append(Gap(count));
      }
    }
  }

  /** The ring, the two trace files, where the ring's cursor stood when each was opened, and the exceptions so far. */
  class Session {
    const cpu: TracedCpu
    const manual: TraceWriter
    const scripted: TraceWriter
    ghost var manualSince: nat
    ghost var scriptedSince: nat
    ghost var spoiled: set<nat>
    ghost var late: set<nat>
    /** Where the ring's cursor stood at the beginning, the exceptions until then, and the drains since. */
    ghost const start: nat
    ghost const before: set<nat>
    ghost var drains: seq<Drain>

    /** Both files tell what became of the frames the CPU finished, in every state the session gets into. */
    ghost predicate Valid()
      reads this, cpu, cpu.frameRing, manual, scripted
    {
      && manual != scripted && cpu.Valid() && manual.Valid() && scripted.Valid()
      && Settled(Told(), cpu.diskCursor)
      && Exceptions(spoiled, late, before, drains, start, cpu.diskCursor) && start <= manualSince && start <= scriptedSince
      && FileKeeps(manual.isOpen, manual.records, manualSince, cpu.diskCursor, Told())
      && FileKeeps(scripted.isOpen, scripted.records, scriptedSince, cpu.diskCursor, Told())
    }

    /** The drain that would be made now: all the ring holds, or as much as it has room for. */
    ghost function ThisDrain(): Drain
      reads cpu
      requires cpu.diskCursor <= cpu.frameHead
    {
      var waiting := cpu.frameHead - cpu.diskCursor;
      var lost := if waiting <= RING_SIZE then 0 else waiting - RING_SIZE;
      Drain(cpu.diskCursor + lost, waiting - lost, cpu.frameHead, cpu.ahead)
    }

    ghost function Told(): Story
      reads this, cpu
    {
      Story(cpu.log, spoiled, late)
    }

    constructor (cpu: TracedCpu, model: Byte)
      requires cpu.Valid()
      ensures Valid() && fresh(manual) && fresh(scripted) && this.cpu == cpu && spoiled == {} && drains == []
      ensures !manual.isOpen && !scripted.isOpen
    {
      hide TracedCpu.Increasing, TracedCpu.Attested, Sorted;
      this.cpu := cpu;
      manual := new TraceWriter(model);
      scripted := new TraceWriter(model);
      manualSince, scriptedSince := cpu.diskCursor, cpu.diskCursor;
      spoiled, late := {}, if 0 < cpu.diskCursor == |cpu.log| then {cpu.diskCursor - 1} else {};
      start, before, drains := cpu.diskCursor, if 0 < cpu.diskCursor == |cpu.log| then {cpu.diskCursor - 1} else {}, [];
      new;
      KeptNothing(cpu.diskCursor, cpu.diskCursor, Told());
    }

    /** A step of the CPU: the last frame is patched, the next one finished; what the files hold stands. */
    method RunStep(shown: Display) returns (weight: nat)
      requires Valid()
      modifies cpu`cpu, cpu`breakpointHit, cpu`log, cpu`ahead, cpu`frameHead, cpu`traceSeqno, cpu`steps, cpu`unmoved, cpu`whole,
               cpu.frameRing
      ensures Valid() && TracedCpu.Grown(old(cpu.log), cpu.log) && cpu.cpu == Step(cpu.chip, old(cpu.cpu))
      ensures cpu.whole == (old(cpu.whole) && cpu.traceFlags.full)
    {
      hide TracedCpu.RingHolds, TracedCpu.Increasing, TracedCpu.Numbered, TracedCpu.Attested, TracedCpu.Grown, Sorted, FileKeeps, Settled, Exceptions, TraceWriter.Valid, Step,
           Weight, Enabled;
      ghost var st := Told();
      weight := cpu.RunStep(shown);
      GoesOn(st);
    }

    /** A fetch phase ahead of the step, for the debugger's view. */
    method BeginNextStep(shown: Display)
      requires Valid()
      modifies cpu`cpu, cpu`breakpointHit, cpu`log, cpu`ahead, cpu`steps, cpu.frameRing
      ensures Valid() && TracedCpu.Grown(old(cpu.log), cpu.log)
    {
      hide TracedCpu.RingHolds, TracedCpu.Increasing, TracedCpu.Numbered, TracedCpu.Attested, TracedCpu.Grown, Sorted, FileKeeps, Settled, Exceptions, TraceWriter.Valid, Begin,
           Enabled, Patched;
      ghost var st := Told();
      cpu.BeginNextStep(shown);
      GoesOn(st);
    }

    method SetTraceFlags(f: TraceFlags)
      requires Valid()
      modifies cpu`traceFlags
      ensures Valid() && cpu.traceFlags == f
    {
      hide TracedCpu.RingHolds, TracedCpu.Increasing, TracedCpu.Numbered, TracedCpu.Attested, Sorted, FileKeeps, Settled,
           Exceptions, TraceWriter.Valid;
      cpu.SetTraceFlags(f);
    }

    /** The log has grown since `st`; everything told stands. */
    lemma GoesOn(st: Story)
      requires Settled(st, cpu.diskCursor) && TracedCpu.Grown(st.log, cpu.log) && st.spoiled == spoiled && st.late == late
      requires FileKeeps(manual.isOpen, manual.records, manualSince, cpu.diskCursor, st)
      requires FileKeeps(scripted.isOpen, scripted.records, scriptedSince, cpu.diskCursor, st)
      ensures Settled(Told(), cpu.diskCursor)
      ensures FileKeeps(manual.isOpen, manual.records, manualSince, cpu.diskCursor, Told())
      ensures FileKeeps(scripted.isOpen, scripted.records, scriptedSince, cpu.diskCursor, Told())
    {
      hide FileKeeps, Settled, Exceptions, TracedCpu.Grown;
      SettledLater(st, Told(), cpu.diskCursor);
      KeptLater(manual.isOpen, manual.records, manualSince, cpu.diskCursor, st, Told());
      KeptLater(scripted.isOpen, scripted.records, scriptedSince, cpu.diskCursor, st, Told());
    }

    lemma NotBefore()
      requires Exceptions(spoiled, late, before, drains, start, cpu.diskCursor)
      ensures start <= cpu.diskCursor
    {
    }

    /** A fresh file starts at the ring's cursor; one already open goes on. */
    method OpenManual(created: bool, timestamp: Time, maxBytes: nat) returns (ok: bool)
      requires Valid()
      modifies manual, `manualSince
      ensures Valid() && ok == manual.isOpen && ok == (old(manual.isOpen) || created)
      ensures manualSince == if !old(manual.isOpen) && created then cpu.diskCursor else old(manualSince)
    {
      hide TracedCpu.RingHolds, TracedCpu.Increasing, TracedCpu.Numbered, TracedCpu.Attested, Sorted, FileKeeps, Settled, Exceptions, TraceWriter.Valid;
      NotBefore();
      if !manual.isOpen && created {
        manualSince := cpu.diskCursor;
        KeptStart(timestamp, manual.model, cpu.diskCursor, Told());
      }
      ok := manual.Open(created, timestamp, maxBytes);
    }

    method OpenScripted(created: bool, timestamp: Time, maxBytes: nat) returns (ok: bool)
      requires Valid()
      modifies scripted, `scriptedSince
      ensures Valid() && ok == scripted.isOpen && ok == (old(scripted.isOpen) || created)
      ensures scriptedSince == if !old(scripted.isOpen) && created then cpu.diskCursor else old(scriptedSince)
    {
      hide TracedCpu.RingHolds, TracedCpu.Increasing, TracedCpu.Numbered, TracedCpu.Attested, Sorted, FileKeeps, Settled, Exceptions, TraceWriter.Valid;
      NotBefore();
      if !scripted.isOpen && created {
        scriptedSince := cpu.diskCursor;
        KeptStart(timestamp, scripted.model, cpu.diskCursor, Told());
      }
      ok := scripted.Open(created, timestamp, maxBytes);
    }

    /** Closing first drains what the ring still holds. */
    method CloseManual()
      requires Valid()
      modifies cpu`diskCursor, cpu`delivered, cpu`lostTotal, manual, scripted, `spoiled, `late, `drains
      ensures Valid() && !manual.isOpen && Told().log == old(Told().log)
      ensures drains == if old(manual.isOpen) then old(drains) + [old(ThisDrain())] else old(drains)
      ensures old(!manual.isOpen) ==> Told() == old(Told()) && cpu.diskCursor == old(cpu.diskCursor) && manual.records == old(manual.records)
      ensures old(manual.isOpen) ==> cpu.diskCursor == cpu.frameHead && Told() == WithDrain(old(Told()), old(ThisDrain()))
    {
      hide TracedCpu.RingHolds, TracedCpu.Increasing, TracedCpu.Numbered, TracedCpu.Attested, Sorted, FileKeeps, Settled, Exceptions, Frames, Fed, Matches, WithDrain, Session.ThisDrain, Took;
      if manual.isOpen {
        var m, s, frames, lost := DrainTrace();
        if manual.isOpen {
          KeptEnd(manual.records, manualSince, cpu.diskCursor, Told());
        }
        manual.Close();
      }
    }

    method CloseScripted()
      requires Valid()
      modifies cpu`diskCursor, cpu`delivered, cpu`lostTotal, manual, scripted, `spoiled, `late, `drains
      ensures Valid() && !scripted.isOpen && Told().log == old(Told().log)
      ensures drains == if old(scripted.isOpen) then old(drains) + [old(ThisDrain())] else old(drains)
      ensures old(!scripted.isOpen) ==> Told() == old(Told()) && cpu.diskCursor == old(cpu.diskCursor) && scripted.records == old(scripted.records)
      ensures old(scripted.isOpen) ==> cpu.diskCursor == cpu.frameHead && Told() == WithDrain(old(Told()), old(ThisDrain()))
    {
      hide TracedCpu.RingHolds, TracedCpu.Increasing, TracedCpu.Numbered, TracedCpu.Attested, Sorted, FileKeeps, Settled, Exceptions, Frames, Fed, Matches, WithDrain, Session.ThisDrain, Took;
      if scripted.isOpen {
        var m, s, frames, lost := DrainTrace();
        if scripted.isOpen {
          KeptEnd(scripted.records, scriptedSince, cpu.diskCursor, Told());
        }
        scripted.Close();
      }
    }

    /** A key pressed or released, a card inserted or ejected: an event of the manual trace. */
    method UserEvent(kind: Byte, row: Byte, col: Byte)
      requires Valid() && FitsRecord(TraceFile.UserEvent(kind, row, col))
      modifies manual
      ensures Valid() && manual.isOpen == old(manual.isOpen)
    {
      hide TracedCpu.RingHolds, TracedCpu.Increasing, TracedCpu.Numbered, TracedCpu.Attested, Sorted, FileKeeps, Settled, Exceptions, TraceWriter.Valid;
      KeptOne(manual.isOpen, manual.records, TraceFile.UserEvent(kind, row, col), manualSince, cpu.diskCursor, Told());
      manual.WriteUserEvent(kind, row, col);
    }

    /** What a writer holds after being offered frames; a closed one stays as it was. */
    static ghost predicate Took(w: TraceWriter, wasOpen: bool, rs: seq<Rec>, frames: seq<FrameRec>)
      reads w
    {
      if wasOpen then Fed(w.model, w.maxBytes, rs, frames) == FedTo(w.isOpen, w.records) else !w.isOpen && w.records == rs
    }

    static ghost function WithGap(open: bool, rs: seq<Rec>, lost: nat): seq<Rec> {
      if open && lost > 0 then rs + [Gap(lost)] else rs
    }

    /** One frame for one writer; true when it closed itself. */
    static method Offer(w: TraceWriter, frames: seq<FrameRec>, i: nat, ghost wasOpen: bool, ghost rs: seq<Rec>)
      returns (limit: bool)
      requires w.Valid() && i < |frames| && Took(w, wasOpen, rs, frames[..i])
      modifies w`isOpen, w`file, w`bytesWritten, w`records, w`eventCount
      ensures w.Valid() && Took(w, wasOpen, rs, frames[..i + 1])
      ensures limit == (old(w.isOpen) && !w.isOpen) && (w.isOpen ==> old(w.isOpen))
    {
      hide Records, FileHeader, Frames, Fed, TraceWriter.Valid;
      limit := false;
      ghost var open, now := w.isOpen, w.records;
      if w.isOpen {
        var ok := w.Write(frames[i]);
        limit := !ok;
      }
      FedFurther(w.model, w.maxBytes, rs, frames[..i], frames[i]);
      assert frames[..i + 1] == frames[..i] + [frames[i]];
    }

    /** The drained frames, for the writers that are open. */
    method WriteFrames(frames: seq<FrameRec>) returns (manualLimit: bool, scriptedLimit: bool)
      requires manual != scripted && manual.Valid() && scripted.Valid()
      modifies manual`isOpen, manual`file, manual`bytesWritten, manual`records, manual`eventCount
      modifies scripted`isOpen, scripted`file, scripted`bytesWritten, scripted`records, scripted`eventCount
      ensures manual.Valid() && scripted.Valid()
      ensures Took(manual, old(manual.isOpen), old(manual.records), frames)
      ensures Took(scripted, old(scripted.isOpen), old(scripted.records), frames)
      ensures manualLimit == (old(manual.isOpen) && !manual.isOpen)
      ensures scriptedLimit == (old(scripted.isOpen) && !scripted.isOpen)
    {
      hide Records, FileHeader, Frames, Fed;
      ghost var mOpen, m0, sOpen, s0 := manual.isOpen, manual.records, scripted.isOpen, scripted.records;
      manualLimit, scriptedLimit := false, false;
      FedNothing(manual.model, manual.maxBytes, m0);
      FedNothing(scripted.model, scripted.maxBytes, s0);
      var i := 0;
      while i < |frames| && (manual.isOpen || scripted.isOpen)
        invariant i <= |frames| && manual.Valid() && scripted.Valid()
        invariant Took(manual, mOpen, m0, frames[..i]) && Took(scripted, sOpen, s0, frames[..i])
        invariant manualLimit == (mOpen && !manual.isOpen) && scriptedLimit == (sOpen && !scripted.isOpen)
      {
        var full := Offer(manual, frames, i, mOpen, m0);
        manualLimit := manualLimit || full;
        full := Offer(scripted, frames, i, sOpen, s0);
        scriptedLimit := scriptedLimit || full;
        i := i + 1;
      }
      FedStays(manual.model, manual.maxBytes, m0, frames, i);
      FedStays(scripted.model, scripted.maxBytes, s0, frames, i);
      assert frames[..|frames|] == frames;
    }

    static lemma FedNothing(model: Byte, maxBytes: nat, rs: seq<Rec>)
      ensures Fed(model, maxBytes, rs, []) == FedTo(true, rs)
    {
    }

    /** A closed writer takes nothing more. */
    static lemma {:induction false} FedStays(model: Byte, maxBytes: nat, rs: seq<Rec>, frames: seq<FrameRec>, i: nat)
      requires i <= |frames|
      ensures !Fed(model, maxBytes, rs, frames[..i]).open ==> Fed(model, maxBytes, rs, frames) == Fed(model, maxBytes, rs, frames[..i])
      decreases |frames| - i
    {
      hide Fed;
      if i < |frames| {
        assert frames[..i + 1] == frames[..i] + [frames[i]];
        FedFurther(model, maxBytes, rs, frames[..i], frames[i]);
        FedStays(model, maxBytes, rs, frames, i + 1);
      } else {
        assert frames[..i] == frames;
      }
    }

    /** What a drain does to one file's account: the gap, then as many of the frames as the file takes. */
    static lemma DrainKeeps(w: TraceWriter, open: bool, rs: seq<Rec>, lost: nat, frames: seq<FrameRec>,
                            since: nat, cursor: nat, st: Story, later: Story)
      requires FileKeeps(open, rs, since, cursor, st) && Settled(st, cursor) && Continues(st, later)
      requires forall j :: 0 <= j < |frames| ==> Matches(frames[j], cursor + lost + j, later)
      requires Took(w, open, WithGap(open, rs, lost), frames)
      ensures FileKeeps(w.isOpen, w.records, since, cursor + lost + |frames|, later)
    {
      hide FileKeeps, Settled, Continues, Matches, Fed;
      KeptLater(open, rs, since, cursor, st, later);
      if open {
        if lost > 0 {
          KeptOne(true, rs, Gap(lost), since, cursor, later);
        }
        KeptFed(w.model, w.maxBytes, WithGap(open, rs, lost), frames, since, cursor + lost, later);
      } else {
        KeptClosed(rs, since, cursor, cursor + lost + |frames|, later);
      }
    }

    /** The gap, if any, and the frames, into the writers that are open. */
    method PassOn(lost: nat, frames: seq<FrameRec>) returns (manualLimit: bool, scriptedLimit: bool)
      requires manual != scripted && manual.Valid() && scripted.Valid()
      modifies manual, scripted
      ensures manual.Valid() && scripted.Valid()
      ensures Took(manual, old(manual.isOpen), WithGap(old(manual.isOpen), old(manual.records), lost), frames)
      ensures Took(scripted, old(scripted.isOpen), WithGap(old(scripted.isOpen), old(scripted.records), lost), frames)
      ensures manualLimit == (old(manual.isOpen) && !manual.isOpen)
      ensures scriptedLimit == (old(scripted.isOpen) && !scripted.isOpen)
    {
      hide TraceWriter.Valid, Fed;
      if lost > 0 {
        manual.WriteLostGap(lost);
        scripted.WriteLostGap(lost);
      }
      manualLimit, scriptedLimit := WriteFrames(frames);
    }

    /**
     One drain: a gap for what the ring lost, then the frames, into every open writer up to its
     limit. The frames are the finished ones from the cursor on; one that a capture ahead has
     overwritten and one that is still the last join the exceptions, and no other does.
     */
    method DrainTrace() returns (manualLimit: bool, scriptedLimit: bool, ghost frames: seq<Frame>, ghost lost: nat)
      requires Valid()
      modifies cpu`diskCursor, cpu`delivered, cpu`lostTotal, manual, scripted, `spoiled, `late, `drains
      ensures Valid() && drains == old(drains) + [old(ThisDrain())] && Told() == WithDrain(old(Told()), old(ThisDrain()))
      ensures var d := old(ThisDrain());
              && lost == d.from - old(cpu.diskCursor) && |frames| == d.count && cpu.diskCursor == cpu.frameHead
              && TracedCpu.Copies(frames, d.from, cpu.log, cpu.frameRing[d.from % RING_SIZE], Overwrites(d))
      ensures Took(manual, old(manual.isOpen), WithGap(old(manual.isOpen), old(manual.records), lost), Converted(frames))
      ensures Took(scripted, old(scripted.isOpen), WithGap(old(scripted.isOpen), old(scripted.records), lost), Converted(frames))
    {
      hide TracedCpu.RingHolds, TracedCpu.Increasing, TracedCpu.Numbered, TracedCpu.Attested, TracedCpu.Copies, Sorted, Fed,
           TraceWriter.Valid, FileKeeps, Settled, Exceptions, Matches, Converted, Continues, Drained, Took, WithGap;
      TracedCpu.RingSize(cpu.frameRing[..], cpu.log, cpu.frameHead, cpu.ahead);
      ghost var st, from := Told(), cpu.diskCursor;
      ghost var m0, s0, mOpen, sOpen := manual.records, scripted.records, manual.isOpen, scripted.isOpen;
      var out, gap := cpu.DrainCpuFrames(DRAIN_BUFFER);
      manualLimit, scriptedLimit := PassOn(gap, Converted(out));
      frames, lost := out, gap;
      NoteDrain(st, from, gap, out, m0, mOpen, s0, sOpen);
    }

    /** The drain joins the session's account. */
    ghost method NoteDrain(st: Story, from: nat, lost: nat, out: seq<Frame>, m0: seq<Rec>, mOpen: bool, s0: seq<Rec>, sOpen: bool)
      requires manual != scripted && cpu.Valid() && manual.Valid() && scripted.Valid() && st == Told()
      requires cpu.diskCursor == cpu.frameHead == |cpu.log| == from + lost + |out| && |out| <= RING_SIZE && (lost > 0 ==> |out| == RING_SIZE)
      requires Exceptions(spoiled, late, before, drains, start, from) && start <= manualSince && start <= scriptedSince && Settled(st, from)
      requires FileKeeps(mOpen, m0, manualSince, from, st) && FileKeeps(sOpen, s0, scriptedSince, from, st)
      requires Took(manual, mOpen, WithGap(mOpen, m0, lost), Converted(out))
      requires Took(scripted, sOpen, WithGap(sOpen, s0, lost), Converted(out))
      requires TracedCpu.Copies(out, from + lost, cpu.log, cpu.frameRing[(from + lost) % RING_SIZE], cpu.ahead && |out| == RING_SIZE)
      modifies `spoiled, `late, `drains
      ensures Valid() && drains == old(drains) + [Drain(from + lost, |out|, cpu.frameHead, cpu.ahead)]
      ensures Told() == WithDrain(st, Drain(from + lost, |out|, cpu.frameHead, cpu.ahead))
    {
      hide TracedCpu.RingHolds, TracedCpu.Increasing, TracedCpu.Copies, Sorted, Fed,
           TraceWriter.Valid, FileKeeps, Settled, Exceptions, Matches, Converted, Continues, Drained, Took, WithGap;
      var overwritten := cpu.ahead && |out| == RING_SIZE;
      var d := Drain(from + lost, |out|, cpu.frameHead, cpu.ahead);
      var later := Drained(st, from + lost, |out|, overwritten);
      DrainedLog(st, from + lost, |out|, overwritten);
      DrainMatches(st, out, from + lost, cpu.frameRing[(from + lost) % RING_SIZE], overwritten);
      DrainContinues(st, from + lost, |out|, overwritten, from);
      DrainKeeps(manual, mOpen, m0, lost, Converted(out), manualSince, from, st, later);
      DrainKeeps(scripted, sOpen, s0, lost, Converted(out), scriptedSince, from, st, later);
      OneDrain(st, before, drains, start, from, d);
      spoiled, late, drains := later.spoiled, later.late, drains + [d];
    }
  }

  /** Reading a writer's file back, open or closed, returns its records in order, gaps left out. */
  lemma FileReadsBack(w: TraceWriter)
    requires w.Valid() && w.file != [] && forall r :: r in w.records ==> FitsRecord(r)
    ensures LoadTrace(w.file) == Some(Readable(w.records))
  {
    FileRoundTrip(w.model, w.records);
  }

  /** Whether the writer is one of the session's, and where its file starts. */
  ghost predicate FileOf(s: Session, w: TraceWriter, since: nat)
    reads s
  {
    (w == s.manual && since == s.manualSince) || (w == s.scripted && since == s.scriptedSince)
  }

  /**
   From the frames the CPU finished to the frames that are loaded: in every state of a session, each
   file loads, and the frames it gives are, in order and one for one, those at rising indices from
   where it was opened; each shows its frame as `Shows` has it. The indices in between are those of
   the gaps. An open file reaches up to the ring's cursor.
   */
  lemma ProducedIsLoaded(s: Session, w: TraceWriter, since: nat)
    requires s.Valid() && FileOf(s, w, since) && w.file != [] && s.cpu.frameHead < Pow256(4)
    ensures var file := LoadTrace(w.file);
            var ids, last := Numbers(w.records, since), since + Span(w.records);
            && file.Some? && |FramesOf(file.value)| == |ids|
            && (forall j :: 0 <= j < |ids| ==> Shows(FramesOf(file.value)[j], ids[j], s.Told()))
            && s.Told().spoiled == SpoiledBy(s.drains) && (forall k :: since <= k ==> (k in s.Told().late <==> k in LateBy(s.drains)))
            && InOrder(s.drains, s.start, s.cpu.diskCursor)
            && (forall j :: 0 <= j < |ids| ==> since <= ids[j] < last)
            && (forall i, j :: 0 <= i < j < |ids| ==> ids[i] < ids[j])
            && |ids| + Lost(w.records) == last - since
            && last <= s.cpu.diskCursor && (w.isOpen ==> last == s.cpu.diskCursor)
  {
    hide Pow256, Span, Lost, Numbers, FramesOf, Readable, Shows, Matches, LoadTrace, TracedCpu.RingHolds, TracedCpu.Increasing,
         TracedCpu.Numbered, TracedCpu.Attested, Sorted, Tells, AllBounded;
    TracedCpu.RingSize(s.cpu.frameRing[..], s.cpu.log, s.cpu.frameHead, s.cpu.ahead);
    AllFit(w.records, since, s.Told(), s.cpu.diskCursor);
    FileReadsBack(w);
    LoadedShow(w.records, since, s.Told());
    NumbersRise(w.records, since);
  }

  /** What the ring's account says of the step of a frame. */
  lemma StepOfFrame(c: TracedCpu, k: nat)
    requires c.Valid() && k < |c.log|
    ensures |c.steps.made| == |c.log| == |c.steps.left| == |c.steps.lit|
    ensures c.steps.left[k] == Step(c.chip, c.steps.made[k]) && IsOf(c.chip, c.log[k], c.steps.made[k], c.steps.left[k])
    ensures k in c.steps.direct ==> Holds(c.log[k], Fetching(c.chip, c.steps.left[k])) && c.log[k].display == c.steps.lit[k]
    ensures c.whole && k + 1 < |c.log| ==> k in c.steps.direct
  {
    hide Step, IsOf, Holds, Fetching, Begin, Countdown, TracedCpu.RingHolds, TracedCpu.Increasing, TracedCpu.Numbered, Sorted;
  }

  /** A shown frame, from the record to the step. */
  lemma ShownIsStep(chip: Chip, f: FrameRec, k: nat, st: Story, made: State, left: State, lit: Display)
    requires Shows(f, k, st) && IsOf(chip, st.log[k], made, left)
    ensures f.seqno == k && f.cycleWeight == (if left.flags.idle && chip.variant != TI58C then 4 else 1)
    ensures k !in st.spoiled ==> f.pc == made.addr as int && f.opcode == chip.rom(made.addr) as int
    ensures k !in st.spoiled && k !in st.late && Holds(st.log[k], Fetching(chip, left)) && st.log[k].display == lit ==>
              ShowsStep(f, chip, made, left, lit)
  {
    hide ShowsStep, ToRec, AsWritten, Holds, Fetching;
    if Holds(st.log[k], Fetching(chip, left)) && st.log[k].display == lit {
      RecordShowsStep(chip, st.log[k], made, left, lit);
    }
  }

  /**
   The frame loaded for step `k` shows what that step did: its address, opcode and ticks, and every
   register, latch and flag as the step left them. The exceptions are the two named ones: the
   overwritten frame keeps its number and ticks, the frame drained while still the last keeps its
   address and opcode too. Where tracing was not full all along it holds of the steps that a fully
   traced one followed at once.
   */
  lemma LoadedIsTheStep(s: Session, w: TraceWriter, since: nat, j: nat)
    requires s.Valid() && FileOf(s, w, since) && w.file != [] && s.cpu.frameHead < Pow256(4) && j < |Numbers(w.records, since)|
    ensures var file, k := LoadTrace(w.file), Numbers(w.records, since)[j];
            && file.Some? && j < |FramesOf(file.value)| && k < |s.cpu.steps.made| == |s.cpu.steps.left| == |s.cpu.steps.lit|
            && var f, made, left := FramesOf(file.value)[j], s.cpu.steps.made[k], s.cpu.steps.left[k];
            && left == Step(s.cpu.chip, made)
            && f.seqno == k && f.cycleWeight == (if left.flags.idle && s.cpu.chip.variant != TI58C then 4 else 1)
            && (k !in s.spoiled ==> f.pc == made.addr as int && f.opcode == s.cpu.chip.rom(made.addr) as int)
            && (k !in s.spoiled && k !in s.late && (s.cpu.whole || k in s.cpu.steps.direct) ==>
                  ShowsStep(f, s.cpu.chip, made, left, s.cpu.steps.lit[k]))
  {
    hide Pow256, Span, Lost, Numbers, FramesOf, Readable, Matches, LoadTrace, TracedCpu.RingHolds, TracedCpu.Increasing,
         TracedCpu.Numbered, TracedCpu.Attested, Sorted, Tells, AllBounded, FileKeeps, TraceWriter.Valid, Exceptions,
         InOrder, SpoiledBy, LateBy, Step, IsOf, Holds, Fetching, ShowsStep, ToRec, AsWritten;
    ProducedIsLoaded(s, w, since);
    var k := Numbers(w.records, since)[j];
    var f := FramesOf(LoadTrace(w.file).value)[j];
    assert Shows(f, k, s.Told());
    StepOfFrame(s.cpu, k);
    ShownIsStep(s.cpu.chip, f, k, s.Told(), s.cpu.steps.made[k], s.cpu.steps.left[k], s.cpu.steps.lit[k]);
  }
}
