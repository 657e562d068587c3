/**
 Deferred memory access. SCOM and the user RAM are reached by short instruction
 sequences: an address on the IO bus, a latch, and an ALU instruction that later
 completes the access. This module proves that programs built from such sequences,
 with any other instructions around them, see an atomic register file.
 */
module DeferredMemory {
  import opened Words
  import opened Alu
  import opened Core
  import opened Execution
  import opened Runs
  import AluArithmetic

  // ---------------------------------------------------------------- instruction classes

  const STO: bv16 := 0x0A0F
  const RCL: bv16 := 0x0A1F
  const MEMWR: bv16 := 0x0A76
  const MEMRD: bv16 := 0x0A86
  const RAMOP: bv16 := 0x0AF8

  predicate IsLatch(op: bv16) {
    !IsBranch(op) && High(op) == 0x0A00 &&
    (op & 0x00FF == 0x0F || op & 0x00FF == 0x1F || op & 0x00FF == 0x76 || op & 0x00FF == 0x86 || op & 0x00FF == 0xF8)
  }

  /** An instruction that may stand between a latch and its completion. */
  predicate IsFiller(op: bv16) { !IsAlu(op) && !IsLatch(op) }

  predicate IsOutput(op: bv16) { IsAlu(op) && DrivesIO(op) }

  /** MOV dst,#0 into a named register under a mask without a constant. */
  predicate IsLoad(op: bv16) {
    IsAlu(op) && op & 0x00F8 == 0xD0 && Destination(op) != NoReg && FieldMask(op).cval == 0
  }

  // ---------------------------------------------------------------- what instructions keep

  /** The memory latches and everything they will act on. */
  predicate SameMemory(s: State, t: State) {
    && t.mem == s.mem
    && t.flags.recall == s.flags.recall && t.flags.store == s.flags.store && t.flags.ramOp == s.flags.ramOp
    && t.flags.ramRead == s.flags.ramRead && t.flags.ramWrite == s.flags.ramWrite
    && SameRegisters(s.regs, t.regs)
  }

  predicate SameRegisters(r: Registers, q: Registers) {
    r.a == q.a && r.b == q.b && r.c == q.c && r.d == q.d && r.e == q.e
  }

  /** No access is under way. */
  predicate Quiet(s: State) {
    !s.flags.recall && !s.flags.store && !s.flags.ramOp && !s.flags.ramRead && !s.flags.ramWrite
  }

  /** The state an instruction's own work starts from. */
  function Entered(s: State, opcode: bv16): State {
    Enter(Restore(Countdown(s), opcode))
  }

  lemma EnteredKeeps(s: State, opcode: bv16)
    ensures SameMemory(s, Entered(s, opcode))
    ensures Entered(s, opcode).regs.sout == if s.flags.ioValid then s.regs.sout else ZERO_DIGITS
    ensures !Entered(s, opcode).flags.ioValid
  {
    CountdownKeeps(s);
    RestoreKeeps(Countdown(s), opcode);
    EnterKeeps(Restore(Countdown(s), opcode));
    hide Countdown, Restore, Enter;
  }

  lemma CountdownKeeps(s: State)
    ensures SameMemory(s, Countdown(s)) && Countdown(s).regs == s.regs && Countdown(s).flags.ioValid == s.flags.ioValid
  {
    hide CountedDown;
  }

  lemma RestoreKeeps(s: State, opcode: bv16)
    ensures SameMemory(s, Restore(s, opcode)) && Restore(s, opcode).regs == s.regs
    ensures Restore(s, opcode).flags.ioValid == s.flags.ioValid
  {
  }

  lemma EnterKeeps(s: State)
    ensures SameMemory(s, Enter(s)) && !Enter(s).flags.ioValid
    ensures Enter(s).regs.sout == if s.flags.ioValid then s.regs.sout else ZERO_DIGITS
  {
  }

  /** An instruction's own work leaves the latches, the memory, the registers and the bus flag alone. */
  predicate Keeps(s: State, t: State) {
    SameMemory(s, t) && t.flags.ioValid == s.flags.ioValid
  }

  lemma CardKeeps(chip: Chip, s: State)
    ensures Keeps(s, InCard(s)) && Keeps(s, OutCard(s)) && Keeps(s, CardOff(chip, s))
    ensures Keeps(s, CardRead(s)) && Keeps(s, CardWrite(s))
  {
    hide StartRead, FinishPass, PressSwitch;
  }

  lemma PrinterKeeps(chip: Chip, s: State)
    ensures Keeps(s, OutPrint(chip, s)) && Keeps(s, OutPrintFunction(chip, s)) && Keeps(s, PrintClear(s))
    ensures Keeps(s, PrintStep(s)) && Keeps(s, PrintLine(s)) && Keeps(s, PrintFeed(s))
  {
    hide PutSlot, PutMnemonic, LineStarted, FeedStarted;
  }

  lemma PlainPeripheralKeeps(s: State)
    ensures Keeps(s, KeyToR5(s)) && Keeps(s, R5ToKey(s))
  {
  }

  lemma PeripheralKeeps(chip: Chip, s: State, op: bv16)
    requires Argument(op) != 0xF
    ensures Keeps(s, Peripheral(chip, s, op))
  {
    hide InCard, OutCard, CardOff, CardRead, CardWrite;
    hide OutPrint, OutPrintFunction, PrintClear, PrintStep, PrintLine, PrintFeed, KeyToR5, R5ToKey, Argument;
    PlainPeripheralKeeps(s);
    CardKeeps(chip, s);
    PrinterKeeps(chip, s);
  }

  lemma LibraryKeeps(chip: Chip, s: State, op: bv16)
    ensures Keeps(s, LibraryOp(chip, s, op))
  {
  }

  lemma FlagOpKeeps(s: State, op: bv16)
    ensures Keeps(s, FlagOp(s, op))
  {
    hide FlagBits;
  }

  lemma KeyScanKeeps(s: State, op: bv16)
    ensures Keeps(s, KeyScan(s, op))
  {
    hide PressedIn, KeyCode;
  }

  lemma ArgumentOf(op: bv16)
    requires High(op) == 0x0A00 && !IsLatch(op) && !IsBranch(op)
    ensures op & 0x000F == 0x8 ==> Argument(op) != 0xF
    ensures op & 0x000F == 0x6 ==> Argument(op) != 0x7 && Argument(op) != 0x8
    ensures op & 0x000F == 0xF ==> Argument(op) != 0x0 && Argument(op) != 0x1
  {
  }

  lemma ControlKeeps(chip: Chip, s: State, op: bv16)
    requires High(op) == 0x0A00 && !IsLatch(op) && !IsBranch(op)
    ensures Keeps(s, Control(chip, s, op))
  {
    hide Peripheral, LibraryOp, TestBusy, PlainControl, Argument, MemoryOrFlags, StoreRecall;
    ArgumentOf(op);
    PlainControlKeeps(s, op);
    PeripheralKeeps'(chip, s, op);
    LibraryKeeps(chip, s, op);
    TestBusyKeeps(chip, s);
    MemoryOrFlagsKeeps(chip, s, op);
    StoreRecallKeeps(s, op);
  }

  lemma PeripheralKeeps'(chip: Chip, s: State, op: bv16)
    ensures Argument(op) != 0xF ==> Keeps(s, Peripheral(chip, s, op))
  {
    hide Peripheral;
    if Argument(op) != 0xF {
      PeripheralKeeps(chip, s, op);
    }
  }

  lemma PlainControlKeeps(s: State, op: bv16)
    ensures Keeps(s, PlainControl(s, op))
  {
    hide IncKR, Argument, TestsKR;
  }

  lemma TestBusyKeeps(chip: Chip, s: State)
    ensures Keeps(s, TestBusy(chip, s))
  {
  }

  lemma MemoryOrFlagsKeeps(chip: Chip, s: State, op: bv16)
    ensures Argument(op) != 0x7 && Argument(op) != 0x8 ==> Keeps(s, MemoryOrFlags(chip, s, op))
  {
  }

  lemma StoreRecallKeeps(s: State, op: bv16)
    ensures Argument(op) != 0x0 && Argument(op) != 0x1 ==> Keeps(s, StoreRecall(s, op))
  {
  }

  lemma RedirectKeeps(s: State)
    ensures Keeps(s, Redirect(s)) && Redirect(s).regs == s.regs && Keeps(s, LatchPreg(s)) && LatchPreg(s).regs == s.regs
  {
    hide NextAddr, LatchedPreg, LatchTaken;
  }

  lemma BranchKeeps(s: State, op: bv16)
    ensures Keeps(s, Branch(s, op))
  {
  }

  /** A filler leaves the latches, the memory and the working registers alone, and lets the bus go. */
  lemma FillerKeeps(chip: Chip, s: State, op: bv16)
    requires IsFiller(op)
    ensures SameMemory(s, Exec(chip, s, op)) && !Exec(chip, s, op).flags.ioValid
  {
    EnteredKeeps(s, op);
    var e := Entered(s, op);
    if IsBranch(op) {
      BranchKeeps(e, op);
    } else {
      ExecuteKeeps(chip, e, op);
      var t := Execute(chip, e, op);
      RedirectKeeps(t);
      RedirectKeeps(Redirect(t));
    }
    hide Countdown, Restore, Enter, Execute, Redirect, LatchPreg, Branch;
  }

  lemma ExecuteKeeps(chip: Chip, s: State, op: bv16)
    requires IsFiller(op) && !IsBranch(op)
    ensures Keeps(s, Execute(chip, s, op))
  {
    if High(op) == 0x0000 {
      FlagOpKeeps(s, op);
    } else if High(op) == 0x0800 {
      KeyScanKeeps(s, op);
    } else {
      ControlKeeps(chip, s, op);
    }
    hide FlagOp, KeyScan, Control, ExecuteAlu;
  }

  lemma {:induction false} FillersKeep(chip: Chip, s: State, wait: seq<bv16>)
    requires forall op :: op in wait ==> IsFiller(op)
    ensures SameMemory(s, Run(chip, s, wait))
    decreases |wait|
  {
    if wait != [] {
      FillerKeeps(chip, s, wait[0]);
      FillersKeep(chip, Exec(chip, s, wait[0]), wait[1..]);
    }
    hide Exec, IsFiller;
  }

  // ---------------------------------------------------------------- what an ALU instruction completes

  /** What an ALU instruction puts on the IO bus; zeros when it does not drive it. */
  function Driven(chip: Chip, e: State, op: bv16): Digits
    requires IsAlu(op)
  {
    if DrivesIO(op) then AluPhase(chip, DriveIO(e, op), op, FieldMask(op)).regs.sout else ZERO_DIGITS
  }

  function Output(chip: Chip, s: State, op: bv16): Digits
    requires IsAlu(op)
  {
    Driven(chip, Entered(s, op), op)
  }

  predicate IsLoadIndex(op: bv16) { op & 0x00F8 == 0xD0 }

  lemma AluPhaseKeeps(chip: Chip, e: State, op: bv16, m: Mask)
    requires Selects(m)
    ensures var t := AluPhase(chip, e, op, m);
            && t.mem == e.mem && t.flags.ioValid == e.flags.ioValid
            && t.flags.store == e.flags.store && t.flags.ramOp == e.flags.ramOp && t.flags.ramWrite == e.flags.ramWrite
            && t.flags.recall == (e.flags.recall && !IsLoadIndex(op))
            && t.flags.ramRead == (e.flags.ramRead && (!IsLoadIndex(op) || e.flags.recall || e.mem.ramAddr >= chip.ramSize))
  {
    hide PassRegs, ClearsCond, Operand, Loaded, Destination, Decode, ConstantRow, Get, Put, LoadSource;
  }

  /** The memory after an ALU instruction, by what was pending before it. */
  predicate Completed(chip: Chip, e: State, op: bv16, x: State)
    requires IsAlu(op)
  {
    var bus := Driven(chip, e, op);
    var m := FieldMask(op);
    && x.flags.ioValid == DrivesIO(op) && x.regs.sout == bus
    && !x.flags.store && !x.flags.ramOp
    && x.flags.recall == (e.flags.recall && !IsLoadIndex(op))
    && x.mem.regAddr == e.mem.regAddr
    && x.mem.scom == (if e.flags.store then e.mem.scom[e.mem.regAddr := bus] else e.mem.scom)
    && (e.flags.ramOp ==>
          && x.mem.ram == RamAfterSpec(chip, e.mem.ram, SpecOp(bus), SpecAddr(bus)) && x.mem.ramAddr == SpecAddr(bus)
          && (!e.flags.ramWrite && !e.flags.ramRead ==>
                && x.flags.ramWrite == (SpecOp(bus) == 1 && SpecAddr(bus) < chip.ramSize)
                && x.flags.ramRead == (SpecOp(bus) == 0 && SpecAddr(bus) < chip.ramSize)))
    && (!e.flags.ramOp ==>
          && x.mem.ramAddr == e.mem.ramAddr && !x.flags.ramWrite
          && x.flags.ramRead == (e.flags.ramRead && (!IsLoadIndex(op) || e.flags.recall || e.mem.ramAddr >= chip.ramSize))
          && x.mem.ram == (if e.flags.ramWrite && e.mem.ramAddr < chip.ramSize
                           then e.mem.ram[e.mem.ramAddr := Exchanged(e.mem.ram[e.mem.ramAddr], bus, m)] else e.mem.ram))
  }

  lemma ExchangeKeepsBus(r: Registers, op: bv16, m: Mask)
    ensures ExchangeRegs(r, op, m).sout == r.sout
  {
  }

  lemma AluCompletes(chip: Chip, e: State, op: bv16)
    requires IsAlu(op) && !e.flags.ioValid
    ensures Completed(chip, e, op, ExecuteAlu(chip, e, op))
  {
    hide AluPhase, ExchangeRegs, RamAfterSpec, SpecOp, SpecAddr, Exchanged, FieldMask;
    var m := FieldMask(op);
    MaskSelects(op);
    AluPhaseKeeps(chip, DriveIO(e, op), op, m);
    ExchangeKeepsBus(AluPhase(chip, DriveIO(e, op), op, m).regs, op, m);
  }

  lemma MaskSelects(op: bv16)
    requires IsAlu(op)
    ensures Selects(FieldMask(op)) && FieldMask(op).start != 0xFF
  {
  }

  /** The whole step: entry, work, and a program counter that does not matter here. */
  lemma AluStepCompletes(chip: Chip, s: State, op: bv16)
    requires IsAlu(op)
    ensures SameMemory(s, Entered(s, op))
    ensures Completed(chip, Entered(s, op), op, Exec(chip, s, op))
    ensures Exec(chip, s, op).regs == ExecuteAlu(chip, Entered(s, op), op).regs
  {
    hide Countdown, Restore, Enter, ExecuteAlu, Redirect, LatchPreg, RamAfterSpec, SpecOp, SpecAddr, FieldMask, Driven, Exchanged;
    var e := Entered(s, op);
    EnteredKeeps(s, op);
    AluCompletes(chip, e, op);
    var x := ExecuteAlu(chip, e, op);
    assert Execute(chip, e, op) == x;
    RedirectKeeps(x);
    var r := Redirect(x);
    RedirectKeeps(r);
    assert Exec(chip, s, op) == LatchPreg(r);
    CompletedKept(chip, e, op, x, r);
    CompletedKept(chip, e, op, r, LatchPreg(r));
  }

  lemma CompletedKept(chip: Chip, e: State, op: bv16, x: State, t: State)
    requires IsAlu(op) && Completed(chip, e, op, x) && Keeps(x, t) && t.regs == x.regs
    ensures Completed(chip, e, op, t)
  {
    hide RamAfterSpec, SpecOp, SpecAddr, FieldMask, Driven, Exchanged;
  }

  // ---------------------------------------------------------------- the latches

  datatype Waiting = Nothing | ForStore | ForRecall | ForSpec | ForRead | ForWrite

  /** Exactly this access is under way. */
  predicate Awaits(s: State, w: Waiting) {
    s.flags.store == w.ForStore? && s.flags.recall == w.ForRecall? && s.flags.ramOp == w.ForSpec?
    && s.flags.ramRead == w.ForRead? && s.flags.ramWrite == w.ForWrite?
  }

  lemma LatchKeeps(chip: Chip, s: State, op: bv16)
    requires op == STO || op == RCL || op == MEMWR || op == MEMRD || op == RAMOP
    ensures var e := Entered(s, op);
            var t := Exec(chip, s, op);
            && SameMemory(s, e) && e.regs.sout == BusData(s)
            && Keeps(Control(chip, e, op), t) && t.regs == Control(chip, e, op).regs
  {
    hide Entered, Control, Exec, Redirect, LatchPreg, Keeps, SameMemory;
    var e := Entered(s, op);
    EnteredKeeps(s, op);
    var c := Control(chip, e, op);
    LatchIs(chip, s, op);
    RedirectKeeps(c);
    RedirectKeeps(Redirect(c));
    KeptTwice(c, Redirect(c), LatchPreg(Redirect(c)));
  }

  lemma LatchIs(chip: Chip, s: State, op: bv16)
    requires op == STO || op == RCL || op == MEMWR || op == MEMRD || op == RAMOP
    ensures Exec(chip, s, op) == LatchPreg(Redirect(Control(chip, Entered(s, op), op)))
  {
    hide Countdown, Restore, Enter, Control, Redirect, LatchPreg;
  }

  lemma KeptTwice(s: State, t: State, u: State)
    requires Keeps(s, t) && Keeps(t, u)
    ensures Keeps(s, u)
  {
  }

  lemma StoreRecallLatches(chip: Chip, e: State, op: bv16)
    requires op == STO || op == RCL
    ensures Control(chip, e, op) ==
            e.(mem := e.mem.(regAddr := RegisterNumber(e.regs.sout)),
               flags := e.flags.(store := e.flags.store || op == STO, recall := e.flags.recall || op == RCL))
  {
    hide RegisterNumber, Peripheral, LibraryOp, TestBusy, PlainControl, MemoryOrFlags;
    assert Argument(op) == if op == STO then 0 else 1;
  }

  lemma MemoryLatches(chip: Chip, e: State, op: bv16)
    requires op == MEMWR || op == MEMRD
    ensures Control(chip, e, op) == MemoryLatch(chip, e, op == MEMWR)
  {
    hide MemoryLatch, Peripheral, LibraryOp, TestBusy, PlainControl, StoreRecall, FlagNibble;
    assert Argument(op) == if op == MEMWR then 7 else 8;
  }

  lemma RamOpLatches(chip: Chip, e: State)
    ensures Control(chip, e, RAMOP) == e.(flags := e.flags.(ramOp := true))
  {
    hide MemoryOrFlags, LibraryOp, TestBusy, PlainControl, StoreRecall;
    assert Argument(RAMOP) == 0xF;
    hide KeyToR5, R5ToKey, InCard, OutCard, CardOff, CardRead, CardWrite, OutPrint, OutPrintFunction, PrintClear, PrintStep,
         PrintLine, PrintFeed;
  }

  /** STO and RCL latch the SCOM register the bus shows; without IO just before them, register 0. */
  lemma ScomLatched(chip: Chip, s: State, op: bv16)
    requires op == STO || op == RCL
    requires Quiet(s)
    ensures var t := Exec(chip, s, op);
            && Awaits(t, if op == STO then ForStore else ForRecall) && SameRegisters(s.regs, t.regs)
            && t.mem == s.mem.(regAddr := RegisterNumber(BusData(s)))
  {
    hide Entered, Control, Exec, RegisterNumber;
    LatchKeeps(chip, s, op);
    StoreRecallLatches(chip, Entered(s, op), op);
  }

  /** MEMWR and MEMRD latch the RAM register the bus shows, if there is one. */
  lemma RamLatched(chip: Chip, s: State, op: bv16)
    requires op == MEMWR || op == MEMRD
    requires Quiet(s)
    ensures var t := Exec(chip, s, op);
            && Awaits(t, if MemAddress(BusData(s)) >= chip.ramSize then Nothing else if op == MEMWR then ForWrite else ForRead)
            && SameRegisters(s.regs, t.regs) && t.mem == s.mem.(ramAddr := MemAddress(BusData(s)))
  {
    hide Entered, Control, Exec, MemAddress;
    LatchKeeps(chip, s, op);
    MemoryLatches(chip, Entered(s, op), op);
  }

  lemma SpecLatched(chip: Chip, s: State)
    requires Quiet(s)
    ensures Awaits(Exec(chip, s, RAMOP), ForSpec) && SameRegisters(s.regs, Exec(chip, s, RAMOP).regs)
    ensures Exec(chip, s, RAMOP).mem == s.mem
  {
    hide Entered, Control, Exec;
    LatchKeeps(chip, s, RAMOP);
    RamOpLatches(chip, Entered(s, RAMOP));
  }

  // ---------------------------------------------------------------- atomic accesses

  datatype File = File(scom: ScomRows, ram: RamRows)

  function FileOf(s: State): File { File(s.mem.scom, s.mem.ram) }

  /** What an access does to the file, at once. */
  datatype Effect =
    | NoEffect
    | PutScom(n: Nibble, value: Digits)
    | PutRam(addr: nat, field: Mask, value: Digits)
    | ClearRows(first: nat, count: nat)

  function Apply(f: File, e: Effect): File {
    match e
    case NoEffect => f
    case PutScom(n, value) => f.(scom := f.scom[n := value])
    case PutRam(a, m, value) => if a < 120 then f.(ram := f.ram[a := Exchanged(f.ram[a], value, m)]) else f
    case ClearRows(first, count) => f.(ram := ClearedRows(f.ram, first, count))
  }

  datatype Access =
    | Scom(address: bv16, latch: bv16, wait: seq<bv16>, last: bv16)
    | Mem(address: bv16, latch: bv16, wait: seq<bv16>, last: bv16)
    | Ram(before: seq<bv16>, spec: bv16, wait: seq<bv16>, last: bv16)

  /** The instructions of an access. */
  function Ops(a: Access): seq<bv16> {
    match a
    case Scom(address, latch, wait, last) => [address, latch] + wait + [last]
    case Mem(address, latch, wait, last) => [address, latch] + wait + [last]
    case Ram(before, spec, wait, last) => [RAMOP] + before + [spec] + wait + [last]
  }

  predicate Fillers(wait: seq<bv16>) {
    forall op :: op in wait ==> IsFiller(op)
  }

  /** The instructions have the shape of an access: address on the bus, latch, fillers, completion. */
  predicate Shaped(a: Access) {
    match a
    case Scom(address, latch, wait, last) =>
      IsOutput(address) && Fillers(wait) && ((latch == STO && IsAlu(last)) || (latch == RCL && IsLoad(last)))
    case Mem(address, latch, wait, last) =>
      IsOutput(address) && Fillers(wait) && ((latch == MEMWR && IsAlu(last)) || (latch == MEMRD && IsLoad(last)))
    case Ram(before, spec, wait, last) => Fillers(before) && IsOutput(spec) && Fillers(wait) && IsAlu(last)
  }

  /** The address half of an access has run: the state the fillers start from. */
  function Latched(chip: Chip, s: State, a: Access): State {
    match a
    case Scom(address, latch, _, _) => Exec(chip, Exec(chip, s, address), latch)
    case Mem(address, latch, _, _) => Exec(chip, Exec(chip, s, address), latch)
    case Ram(before, spec, _, _) => Exec(chip, Run(chip, Exec(chip, s, RAMOP), before), spec)
  }

  /** The state the completing instruction starts from. */
  function Ready(chip: Chip, s: State, a: Access): State {
    Run(chip, Latched(chip, s, a), a.wait)
  }

  lemma OpsRun(chip: Chip, s: State, a: Access)
    ensures Run(chip, s, Ops(a)) == Exec(chip, Ready(chip, s, a), a.last)
  {
    hide Exec;
    var f := Executor(chip);
    match a
    case Scom(address, latch, wait, last) => {
      FoldThrough(f, s, [address, latch], wait, last);
      FoldTwo(f, s, address, latch);
    }
    case Mem(address, latch, wait, last) => {
      FoldThrough(f, s, [address, latch], wait, last);
      FoldTwo(f, s, address, latch);
    }
    case Ram(before, spec, wait, last) => {
      FoldThrough(f, s, [RAMOP] + before + [spec], wait, last);
      FoldThrough(f, s, [RAMOP], before, spec);
      FoldOne(f, s, RAMOP);
    }
  }

  lemma FoldTwo<S, A>(f: (S, A) -> S, s: S, a: A, b: A)
    ensures Fold(f, s, [a, b]) == f(f(s, a), b)
  {
    assert [a, b] == [a] + [b];
    FoldAppend(f, s, [a], [b]);
    FoldOne(f, s, a);
    FoldOne(f, f(s, a), b);
  }

  lemma FoldThrough<S, A>(f: (S, A) -> S, s: S, first: seq<A>, wait: seq<A>, last: A)
    ensures Fold(f, s, first + wait + [last]) == f(Fold(f, Fold(f, s, first), wait), last)
  {
    FoldAppend(f, s, first + wait, [last]);
    FoldAppend(f, s, first, wait);
    FoldOne(f, Fold(f, Fold(f, s, first), wait), last);
  }

  // ---------------------------------------------------------------- refinement, one access

  /** The register and operation RAM_OP's specification names. */
  function SpecBus(chip: Chip, s: State, a: Access): Digits
    requires a.Ram? && IsAlu(a.spec)
  {
    Output(chip, Run(chip, Exec(chip, s, RAMOP), a.before), a.spec)
  }

  /** A RAM_OP read is completed by a load. */
  predicate Sound(chip: Chip, s: State, a: Access) {
    Shaped(a) && (a.Ram? && SpecOp(SpecBus(chip, s, a)) == 0 && SpecAddr(SpecBus(chip, s, a)) < chip.ramSize ==> IsLoad(a.last))
  }

  function EffectOf(chip: Chip, s: State, a: Access): Effect
    requires Shaped(a)
  {
    match a
    case Scom(address, latch, _, last) =>
      if latch == STO then PutScom(Output(chip, s, address)[0] % 16, Output(chip, Ready(chip, s, a), last)) else NoEffect
    case Mem(address, latch, _, last) =>
      var n := MemAddress(Output(chip, s, address));
      if latch == MEMWR && n < chip.ramSize then PutRam(n, FieldMask(last), Output(chip, Ready(chip, s, a), last)) else NoEffect
    case Ram(_, _, _, last) =>
      var op, n := SpecOp(SpecBus(chip, s, a)), SpecAddr(SpecBus(chip, s, a));
      if op == 2 then ClearRows(0, 120)
      else if n >= chip.ramSize then NoEffect
      else if op == 4 then ClearRows(n, 10)
      else if op == 1 then PutRam(n, FieldMask(last), Output(chip, Ready(chip, s, a), last))
      else NoEffect
  }

  /** With nothing under way an ALU instruction only moves registers. */
  lemma QuietAlu(chip: Chip, s: State, op: bv16)
    requires Quiet(s) && IsAlu(op)
    ensures var t := Exec(chip, s, op);
            Quiet(t) && FileOf(t) == FileOf(s) && BusData(t) == Output(chip, s, op)
  {
    hide Exec, Entered, Driven, RamAfterSpec, SpecOp, SpecAddr, Exchanged, FieldMask;
    AluStepCompletes(chip, s, op);
    assert Exec(chip, s, op).flags.ioValid == DrivesIO(op);
    UndrivenBus(chip, Entered(s, op), op);
  }

  lemma UndrivenBus(chip: Chip, e: State, op: bv16)
    requires IsAlu(op)
    ensures !DrivesIO(op) ==> Driven(chip, e, op) == ZERO_DIGITS
  {
    hide AluPhase;
  }

  /** The pending access completes at the next ALU instruction. */
  lemma PendingAlu(chip: Chip, s: State, w: Waiting, op: bv16)
    requires Awaits(s, w) && IsAlu(op) && !w.ForSpec? && (w.ForRecall? || w.ForRead? ==> IsLoad(op))
    requires w.ForRead? ==> s.mem.ramAddr < chip.ramSize
    ensures var t := Exec(chip, s, op);
            var out := Output(chip, s, op);
            && Quiet(t)
            && FileOf(t) == Apply(FileOf(s), match w
                                             case ForStore => PutScom(s.mem.regAddr, out)
                                             case ForWrite => (if s.mem.ramAddr < chip.ramSize then PutRam(s.mem.ramAddr, FieldMask(op), out) else NoEffect)
                                             case _ => NoEffect)
  {
    hide Exec, Entered, Driven, FieldMask, Exchanged;
    AluStepCompletes(chip, s, op);
  }

  lemma SpecAlu(chip: Chip, s: State, op: bv16)
    requires Awaits(s, ForSpec) && IsOutput(op)
    ensures var t := Exec(chip, s, op);
            var bus := Output(chip, s, op);
            var n := SpecAddr(bus);
            && t.mem.ramAddr == n
            && Awaits(t, if n >= chip.ramSize then Nothing else if SpecOp(bus) == 1 then ForWrite else if SpecOp(bus) == 0 then ForRead else Nothing)
            && FileOf(t) == Apply(FileOf(s), if SpecOp(bus) == 2 then ClearRows(0, 120)
                                             else if SpecOp(bus) == 4 && n < chip.ramSize then ClearRows(n, 10) else NoEffect)
  {
    hide Exec, Entered, Driven, FieldMask, Exchanged, ClearedRows, SpecAddr, SpecOp;
    AluStepCompletes(chip, s, op);
  }

  lemma FillersAwait(chip: Chip, s: State, w: Waiting, wait: seq<bv16>)
    requires Awaits(s, w) && Fillers(wait)
    ensures var t := Run(chip, s, wait);
            Awaits(t, w) && t.mem == s.mem && SameRegisters(s.regs, t.regs)
  {
    hide Run, IsFiller;
    FillersKeep(chip, s, wait);
  }

  predicate Atomic(chip: Chip, s: State, a: Access, t: State)
    requires Shaped(a)
  {
    Quiet(t) && FileOf(t) == Apply(FileOf(s), EffectOf(chip, s, a))
  }

  lemma ScomIsAtomic(chip: Chip, s: State, a: Access)
    requires Quiet(s) && Sound(chip, s, a) && a.Scom?
    ensures Atomic(chip, s, a, Exec(chip, Ready(chip, s, a), a.last))
  {
    hide Exec, Run, Output, Apply, IsFiller, FieldMask;
    QuietAlu(chip, s, a.address);
    ScomLatched(chip, Exec(chip, s, a.address), a.latch);
    var w := if a.latch == STO then ForStore else ForRecall;
    FillersAwait(chip, Latched(chip, s, a), w, a.wait);
    PendingAlu(chip, Ready(chip, s, a), w, a.last);
  }

  lemma MemIsAtomic(chip: Chip, s: State, a: Access)
    requires Quiet(s) && Sound(chip, s, a) && a.Mem?
    ensures Atomic(chip, s, a, Exec(chip, Ready(chip, s, a), a.last))
  {
    hide Exec, Run, Output, Apply, IsFiller, FieldMask, MemAddress;
    QuietAlu(chip, s, a.address);
    RamLatched(chip, Exec(chip, s, a.address), a.latch);
    var n := MemAddress(Output(chip, s, a.address));
    var w := if n >= chip.ramSize then Nothing else if a.latch == MEMWR then ForWrite else ForRead;
    FillersAwait(chip, Latched(chip, s, a), w, a.wait);
    PendingAlu(chip, Ready(chip, s, a), w, a.last);
  }

  lemma RamIsAtomic(chip: Chip, s: State, a: Access)
    requires Quiet(s) && Sound(chip, s, a) && a.Ram?
    ensures Atomic(chip, s, a, Exec(chip, Ready(chip, s, a), a.last))
  {
    hide Exec, Run, Output, Apply, IsFiller, FieldMask, SpecOp, SpecAddr;
    SpecLatched(chip, s);
    FillersAwait(chip, Exec(chip, s, RAMOP), ForSpec, a.before);
    SpecAlu(chip, Run(chip, Exec(chip, s, RAMOP), a.before), a.spec);
    var n, op := SpecAddr(SpecBus(chip, s, a)), SpecOp(SpecBus(chip, s, a));
    var w := if n >= chip.ramSize then Nothing else if op == 1 then ForWrite else if op == 0 then ForRead else Nothing;
    var l := Latched(chip, s, a);
    FillersAwait(chip, l, w, a.wait);
    PendingAlu(chip, Ready(chip, s, a), w, a.last);
    ApplyNothing(FileOf(s));
    ApplyNothing(FileOf(l));
  }

  /** Every access, with its fillers, is one atomic effect on the file and leaves nothing under way. */
  lemma AccessIsAtomic(chip: Chip, s: State, a: Access)
    requires Quiet(s) && Sound(chip, s, a)
    ensures Atomic(chip, s, a, Run(chip, s, Ops(a)))
  {
    hide Exec, Run, Sound, EffectOf, FileOf, Ready, Ops;
    OpsRun(chip, s, a);
    match a {
      case Scom(_, _, _, _) => ScomIsAtomic(chip, s, a);
      case Mem(_, _, _, _) => MemIsAtomic(chip, s, a);
      case Ram(_, _, _, _) => RamIsAtomic(chip, s, a);
    }
  }

  lemma ApplyNothing(f: File)
    ensures Apply(f, NoEffect) == f
  {
  }

  // ---------------------------------------------------------------- refinement, whole programs

  datatype Item = Plain(op: bv16) | Accessing(access: Access)

  function ItemOps(i: Item): seq<bv16> {
    match i
    case Plain(op) => [op]
    case Accessing(a) => Ops(a)
  }

  function Program(items: seq<Item>): seq<bv16> {
    if items == [] then [] else ItemOps(items[0]) + Program(items[1..])
  }

  function After(chip: Chip, s: State, items: seq<Item>): State {
    Run(chip, s, Program(items))
  }

  predicate ItemSound(chip: Chip, s: State, i: Item) {
    match i
    case Plain(op) => !IsLatch(op)
    case Accessing(a) => Sound(chip, s, a)
  }

  function ItemEffect(chip: Chip, s: State, i: Item): Effect
    requires ItemSound(chip, s, i)
  {
    match i
    case Plain(_) => NoEffect
    case Accessing(a) => EffectOf(chip, s, a)
  }

  /** Every latch instruction stands inside an access of the proper shape. */
  predicate WellFormed(chip: Chip, s: State, items: seq<Item>)
    decreases |items|
  {
    items == [] ||
    (ItemSound(chip, s, items[0]) && WellFormed(chip, Run(chip, s, ItemOps(items[0])), items[1..]))
  }

  /** The effects of a program's accesses, in order. */
  function Effects(chip: Chip, s: State, items: seq<Item>): seq<Effect>
    requires WellFormed(chip, s, items)
    decreases |items|
  {
    if items == [] then []
    else
      [ItemEffect(chip, s, items[0])] + Effects(chip, Run(chip, s, ItemOps(items[0])), items[1..])
  }

  function ApplyAll(f: File, effects: seq<Effect>): File {
    Fold((g, e) => Apply(g, e), f, effects)
  }

  lemma PlainKeeps(chip: Chip, s: State, op: bv16)
    requires Quiet(s) && !IsLatch(op)
    ensures Quiet(Exec(chip, s, op)) && FileOf(Exec(chip, s, op)) == FileOf(s)
  {
    hide Exec, IsAlu, IsLatch;
    if IsAlu(op) {
      QuietAlu(chip, s, op);
    } else {
      FillerKeeps(chip, s, op);
    }
  }

  lemma ItemIsAtomic(chip: Chip, s: State, i: Item)
    requires Quiet(s) && ItemSound(chip, s, i)
    ensures var t := Run(chip, s, ItemOps(i));
            Quiet(t) && FileOf(t) == Apply(FileOf(s), ItemEffect(chip, s, i))
  {
    hide Exec, Sound, EffectOf, FileOf, Ops, Run;
    match i {
      case Plain(op) =>
        PlainKeeps(chip, s, op);
        RunOne(chip, s, op);
        ApplyNothing(FileOf(s));
      case Accessing(a) => AccessIsAtomic(chip, s, a);
    }
  }

  lemma RunOne(chip: Chip, s: State, op: bv16)
    ensures Run(chip, s, [op]) == Exec(chip, s, op)
  {
    hide Exec;
    FoldOne(Executor(chip), s, op);
  }

  /**
   Any program whose latches stand in accesses runs as if every access were one atomic
   operation on the register file, and ends with nothing under way.
   */
  lemma {:induction false} ProgramRefinesFile(chip: Chip, s: State, items: seq<Item>)
    requires Quiet(s) && WellFormed(chip, s, items)
    ensures Quiet(After(chip, s, items))
    ensures FileOf(After(chip, s, items)) == ApplyAll(FileOf(s), Effects(chip, s, items))
    decreases |items|
  {
    hide Exec, Sound, EffectOf, FileOf, Apply, Ops, IsLatch;
    var f := Executor(chip);
    if items != [] {
      var i, rest := items[0], items[1..];
      var t := Run(chip, s, ItemOps(i));
      FoldAppend(f, s, ItemOps(i), Program(rest));
      ItemIsAtomic(chip, s, i);
      ProgramRefinesFile(chip, t, rest);
      var effects := Effects(chip, s, items);
      assert effects[1..] == Effects(chip, t, rest);
      assert ApplyAll(FileOf(s), effects) == ApplyAll(Apply(FileOf(s), effects[0]), effects[1..]);
    }
  }

  // ---------------------------------------------------------------- loads and read-back

  predicate LegalIn(row: Digits, m: Mask) {
    Selects(m) && AluArithmetic.LegalField(row, m)
  }

  lemma PlainPass(dst: Digits, row: Digits, m: Mask)
    requires Selects(m) && m.cval == 0 && LegalIn(row, m)
    ensures Result(dst, Add, ZERO_DIGITS, Operand(Masked(row, m), m), m) == Exchanged(dst, row, m)
    ensures !ClearsCond(Add, ZERO_DIGITS, Operand(Masked(row, m), m), m)
  {
    hide RawSum, RawAt, Corrected, CarryInto;
    var z := Masked(row, m);
    assert Operand(z, m) == z by {
      assert z[m.cpos := z[m.cpos]] == z;
    }
    forall i | m.start <= i <= m.end
      ensures SumAt(Add, ZERO_DIGITS, z, m, i) == row[i] && RawAt(Add, ZERO_DIGITS, z, m, i) == row[i]
    {
      AluArithmetic.SumsOfOneOperand(Add, ZERO_DIGITS, z, z, m, i);
    }
  }

  /** The register a load fills. */
  function LoadTarget(s: State, op: bv16): Digits { Get(s.regs, Destination(op)) }

  /** A completing load puts exactly the row's field into the register and changes nothing else of it. */
  lemma LoadDelivers(chip: Chip, s: State, w: Waiting, op: bv16)
    requires Awaits(s, w) && IsLoad(op) && (w.ForRecall? || (w.ForRead? && s.mem.ramAddr < chip.ramSize))
    requires LegalIn(if w.ForRecall? then s.mem.scom[s.mem.regAddr] else s.mem.ram[s.mem.ramAddr], FieldMask(op))
    ensures LoadTarget(Exec(chip, s, op), op)
         == Exchanged(LoadTarget(s, op), if w.ForRecall? then s.mem.scom[s.mem.regAddr] else s.mem.ram[s.mem.ramAddr], FieldMask(op))
  {
    hide Exec, Entered, Exchanged, FieldMask, LoadPhase, Destination, Get, StorePhase, RamOpPhase, CapturePhase, LegalIn, ExchangePhase;
    AluStepCompletes(chip, s, op);
    MaskSelects(op);
    var e := DriveIO(Entered(s, op), op);
    var m := FieldMask(op);
    var row := if w.ForRecall? then s.mem.scom[s.mem.regAddr] else s.mem.ram[s.mem.ramAddr];
    RowLoaded(chip, s, e, w, row, m);
    LoadFills(chip, e, Destination(op), row, m);
    SameTarget(s, e, op);
    var t := AluPhase(chip, e, op, m);
    assert t == LoadPhase(chip, e, Destination(op), m);
    LoadIndexKeeps(op);
    LatePhasesKeepRegisters(chip, t, op, m);
    SameTarget(t, Exec(chip, s, op), op);
  }

  lemma LoadIndexKeeps(op: bv16)
    requires IsLoad(op)
    ensures op & 0x7 != 2 && op & 0x7 != 5 && op & 0x7 != 7
  {
  }

  lemma SameTarget(s: State, t: State, op: bv16)
    requires SameRegisters(s.regs, t.regs)
    ensures LoadTarget(s, op) == LoadTarget(t, op)
  {
  }

  lemma RowLoaded(chip: Chip, s: State, e: State, w: Waiting, row: Digits, m: Mask)
    requires Awaits(s, w) && SameMemory(s, e) && (w.ForRecall? || (w.ForRead? && s.mem.ramAddr < chip.ramSize))
    requires row == if w.ForRecall? then s.mem.scom[s.mem.regAddr] else s.mem.ram[s.mem.ramAddr]
    ensures LoadSource(chip, e, m) == Masked(row, m)
  {
    hide Masked;
  }

  lemma LoadFills(chip: Chip, e: State, dst: RegName, row: Digits, m: Mask)
    requires dst != NoReg && m.cval == 0 && LegalIn(row, m) && LoadSource(chip, e, m) == Masked(row, m)
    ensures Get(LoadPhase(chip, e, dst, m).regs, dst) == Exchanged(Get(e.regs, dst), row, m)
  {
    hide Result, Operand, Exchanged, ClearsCond, Masked, Bus, NewR5, LoadSource;
    PlainPass(Get(e.regs, dst), row, m);
  }

  lemma LatePhasesKeepRegisters(chip: Chip, t: State, op: bv16, m: Mask)
    requires op & 0x7 != 2 && op & 0x7 != 5 && op & 0x7 != 7
    ensures SameRegisters(t.regs, ReleaseBus(RamOpPhase(chip, StorePhase(CapturePhase(ExchangePhase(t, op, m), m)))).regs)
  {
    hide StorePhase, CapturePhase, RamOpPhase;
    var c := CapturePhase(ExchangePhase(t, op, m), m);
    PhaseKeepsRegisters(chip, ExchangePhase(t, op, m), m);
    PhaseKeepsRegisters(chip, c, m);
    PhaseKeepsRegisters(chip, StorePhase(c), m);
  }

  lemma PhaseKeepsRegisters(chip: Chip, t: State, m: Mask)
    ensures CapturePhase(t, m).regs == t.regs && StorePhase(t).regs == t.regs && RamOpPhase(chip, t).regs == t.regs
  {
    hide Exchanged, SpecAddr, SpecOp, RamAfterSpec;
  }

  /** An access that reads RAM register `n`. */
  predicate ReadsRam(chip: Chip, s: State, a: Access, n: nat) {
    Sound(chip, s, a) && n < chip.ramSize &&
    match a
    case Scom(_, _, _, _) => false
    case Mem(address, latch, _, _) => latch == MEMRD && MemAddress(Output(chip, s, address)) == n
    case Ram(_, _, _, _) => SpecOp(SpecBus(chip, s, a)) == 0 && SpecAddr(SpecBus(chip, s, a)) == n
  }

  /** An access that recalls SCOM register `n`. */
  predicate ReadsScom(chip: Chip, s: State, a: Access, n: Nibble) {
    Sound(chip, s, a) && a.Scom? && a.latch == RCL && Output(chip, s, a.address)[0] % 16 == n
  }

  /** The bus that names an access's register. */
  function NamingBus(chip: Chip, s: State, a: Access): Digits
    requires Shaped(a)
  {
    if a.Ram? then SpecBus(chip, s, a) else Output(chip, s, a.address)
  }

  /**
   Which registers an access names, by the bus's digits: a SCOM register by digit 0, MEMWR's and
   MEMRD's by digits 1 and 0 in hexadecimal, RAM_OP's by digits 3 and 2 in decimal, its operation
   by digit 0.
   */
  lemma NamedByDigits(chip: Chip, s: State, a: Access, d: Digits)
    requires Sound(chip, s, a) && d == NamingBus(chip, s, a) && d[0] < 16 && d[1] < 16 && d[2] < 16 && d[3] < 16
    ensures a.Scom? ==>
              && (a.latch == STO ==> EffectOf(chip, s, a) == PutScom(d[0], Output(chip, Ready(chip, s, a), a.last)))
              && (a.latch == RCL ==> forall n: Nibble :: ReadsScom(chip, s, a, n) <==> n == d[0])
    ensures a.Mem? ==>
              var m := 16 * d[1] + d[0];
              && (a.latch == MEMWR && m < chip.ramSize ==>
                    EffectOf(chip, s, a) == PutRam(m, FieldMask(a.last), Output(chip, Ready(chip, s, a), a.last)))
              && (forall n: nat :: ReadsRam(chip, s, a, n) <==> a.latch == MEMRD && n == m < chip.ramSize)
    ensures a.Ram? ==>
              var m := 10 * d[3] + d[2];
              && (d[0] == 1 && m < chip.ramSize ==>
                    EffectOf(chip, s, a) == PutRam(m, FieldMask(a.last), Output(chip, Ready(chip, s, a), a.last)))
              && (d[0] == 2 ==> EffectOf(chip, s, a) == ClearRows(0, 120))
              && (d[0] == 4 && m < chip.ramSize ==> EffectOf(chip, s, a) == ClearRows(m, 10))
              && (d[0] !in {1, 2, 4} || (d[0] != 2 && m >= chip.ramSize) ==> EffectOf(chip, s, a) == NoEffect)
              && (forall n: nat :: ReadsRam(chip, s, a, n) <==> d[0] == 0 && n == m < chip.ramSize)
  {
    hide Exec, Run, Output, IsFiller, Ready, FieldMask, IsAlu, SpecBus, SpecOp, SpecAddr, MemAddress;
    BusNames(d);
  }

  lemma BusNames(d: Digits)
    requires d[0] < 16 && d[1] < 16 && d[2] < 16 && d[3] < 16
    ensures SpecOp(d) == d[0] && SpecAddr(d) == 10 * d[3] + d[2] && MemAddress(d) == 16 * d[1] + d[0]
  {
  }

  lemma ReadIsLatched(chip: Chip, s: State, a: Access, n: nat)
    requires Quiet(s) && ReadsRam(chip, s, a, n)
    ensures var r := Ready(chip, s, a);
            Awaits(r, ForRead) && r.mem.ramAddr == n && FileOf(r) == FileOf(s)
  {
    hide Exec, Run, Output, IsFiller, SpecOp, SpecAddr, MemAddress;
    match a {
      case Mem(address, latch, wait, _) =>
        QuietAlu(chip, s, address);
        RamLatched(chip, Exec(chip, s, address), latch);
      case Ram(before, spec, wait, _) =>
        SpecLatched(chip, s);
        FillersAwait(chip, Exec(chip, s, RAMOP), ForSpec, before);
        SpecAlu(chip, Run(chip, Exec(chip, s, RAMOP), before), spec);
    }
    FillersAwait(chip, Latched(chip, s, a), ForRead, a.wait);
  }

  lemma RecallIsLatched(chip: Chip, s: State, a: Access, n: Nibble)
    requires Quiet(s) && ReadsScom(chip, s, a, n)
    ensures var r := Ready(chip, s, a);
            Awaits(r, ForRecall) && r.mem.regAddr == n && FileOf(r) == FileOf(s)
  {
    hide Exec, Run, Output, IsFiller;
    QuietAlu(chip, s, a.address);
    ScomLatched(chip, Exec(chip, s, a.address), a.latch);
    FillersAwait(chip, Latched(chip, s, a), ForRecall, a.wait);
  }

  /** A read access delivers the field of the file's register, whatever stands between its instructions. */
  lemma RamReadDelivers(chip: Chip, s: State, a: Access, n: nat)
    requires Quiet(s) && ReadsRam(chip, s, a, n) && IsLoad(a.last) && LegalIn(FileOf(s).ram[n], FieldMask(a.last))
    ensures forall i :: 0 <= i < 16 && InField(FieldMask(a.last), i) ==>
              LoadTarget(Run(chip, s, Ops(a)), a.last)[i] == FileOf(s).ram[n][i]
  {
    hide Exec, Run, Sound, Ops, Output, FieldMask, IsLoad, LegalIn;
    ReadIsLatched(chip, s, a, n);
    OpsRun(chip, s, a);
    LoadDelivers(chip, Ready(chip, s, a), ForRead, a.last);
  }

  lemma ScomReadDelivers(chip: Chip, s: State, a: Access, n: Nibble)
    requires Quiet(s) && ReadsScom(chip, s, a, n) && IsLoad(a.last) && LegalIn(FileOf(s).scom[n], FieldMask(a.last))
    ensures forall i :: 0 <= i < 16 && InField(FieldMask(a.last), i) ==>
              LoadTarget(Run(chip, s, Ops(a)), a.last)[i] == FileOf(s).scom[n][i]
  {
    hide Exec, Run, Sound, Ops, Output, FieldMask, IsLoad, LegalIn;
    RecallIsLatched(chip, s, a, n);
    OpsRun(chip, s, a);
    LoadDelivers(chip, Ready(chip, s, a), ForRecall, a.last);
  }

  /** The effect changes no digit of the field `m` of RAM register `n`. */
  predicate SparesRam(e: Effect, n: nat, m: Mask) {
    match e
    case PutRam(a, field, _) => a != n || field.end < m.start || m.end < field.start
    case ClearRows(first, count) => !(first <= n < first + count)
    case _ => true
  }

  predicate TouchesScom(e: Effect, n: Nibble) {
    e.PutScom? && e.n == n
  }

  lemma {:induction false} UntouchedRam(f: File, effects: seq<Effect>, n: nat, m: Mask)
    requires n < 120 && forall e :: e in effects ==> SparesRam(e, n, m)
    ensures forall i :: 0 <= i < 16 && InField(m, i) ==> ApplyAll(f, effects).ram[n][i] == f.ram[n][i]
    decreases |effects|
  {
    if effects != [] {
      assert effects[0] in effects;
      UntouchedRam(Apply(f, effects[0]), effects[1..], n, m);
    }
  }

  lemma {:induction false} UntouchedScom(f: File, effects: seq<Effect>, n: Nibble)
    requires forall e :: e in effects ==> !TouchesScom(e, n)
    ensures ApplyAll(f, effects).scom[n] == f.scom[n]
    decreases |effects|
  {
    if effects != [] {
      assert effects[0] in effects;
      UntouchedScom(Apply(f, effects[0]), effects[1..], n);
    }
  }

  /**
   What a RAM write put into a field is what a later read of that field or of any part of it
   delivers, for any program between them that leaves those digits of the register alone: it may
   write other fields of the same register, and every other register.
   */
  lemma RamReadBack(chip: Chip, s: State, write: Access, between: seq<Item>, read: Access, n: nat, field: Mask, value: Digits)
    requires Quiet(s) && Sound(chip, s, write) && n < 120
    requires EffectOf(chip, s, write) == PutRam(n, field, value)
    requires var t := Run(chip, s, Ops(write));
             && WellFormed(chip, t, between)
             && (forall e :: e in Effects(chip, t, between) ==> SparesRam(e, n, FieldMask(read.last)))
             && ReadsRam(chip, After(chip, t, between), read, n)
    requires IsLoad(read.last) && LegalIn(value, FieldMask(read.last))
    requires field.start <= FieldMask(read.last).start && FieldMask(read.last).end <= field.end
    ensures var u := Run(chip, After(chip, Run(chip, s, Ops(write)), between), Ops(read));
            forall i :: 0 <= i < 16 && InField(FieldMask(read.last), i) ==> LoadTarget(u, read.last)[i] == value[i]
  {
    hide Exec, Run, Ops, Sound, Program, WellFormed, Effects, EffectOf, Output, FieldMask, IsLoad, ReadsRam, ApplyAll, SparesRam,
      Shaped, LoadTarget;
    var t := Run(chip, s, Ops(write));
    AccessIsAtomic(chip, s, write);
    ProgramRefinesFile(chip, t, between);
    UntouchedRam(FileOf(t), Effects(chip, t, between), n, FieldMask(read.last));
    var u := After(chip, t, between);
    var m := FieldMask(read.last);
    assert FileOf(t).ram[n] == Exchanged(FileOf(s).ram[n], value, field);
    assert forall i :: 0 <= i < 16 && InField(m, i) ==> FileOf(u).ram[n][i] == value[i];
    RamReadDelivers(chip, u, read, n);
  }

  /** The same for SCOM, where a store replaces the whole register. */
  lemma ScomReadBack(chip: Chip, s: State, store: Access, between: seq<Item>, read: Access, n: Nibble, value: Digits)
    requires Quiet(s) && Sound(chip, s, store)
    requires EffectOf(chip, s, store) == PutScom(n, value)
    requires var t := Run(chip, s, Ops(store));
             && WellFormed(chip, t, between) && (forall e :: e in Effects(chip, t, between) ==> !TouchesScom(e, n))
             && ReadsScom(chip, After(chip, t, between), read, n)
    requires IsLoad(read.last) && LegalIn(value, FieldMask(read.last))
    ensures var u := Run(chip, After(chip, Run(chip, s, Ops(store)), between), Ops(read));
            forall i :: 0 <= i < 16 && InField(FieldMask(read.last), i) ==> LoadTarget(u, read.last)[i] == value[i]
  {
    hide Exec, Run, Ops, Sound, Program, WellFormed, Effects, EffectOf, Output, FieldMask, IsLoad, ReadsScom, ApplyAll;
    var t := Run(chip, s, Ops(store));
    AccessIsAtomic(chip, s, store);
    ProgramRefinesFile(chip, t, between);
    UntouchedScom(FileOf(t), Effects(chip, t, between), n);
    var u := After(chip, t, between);
    assert FileOf(u).scom[n] == value;
    ScomReadDelivers(chip, u, read, n);
  }

  /** MOV of A, B, C or D through the adder unchanged. */
  predicate Moves(op: bv16, name: RegName) {
    || (name == RegA && op & 0x00F8 == 0x00) || (name == RegB && op & 0x00F8 == 0x10)
    || (name == RegC && op & 0x00F8 == 0x20) || (name == RegD && op & 0x00F8 == 0x30)
  }

  /** Plain moves to IO put the register's field on the bus and zeros around it. */
  lemma MoveToBus(chip: Chip, s: State, op: bv16, name: RegName)
    requires IsOutput(op) && FieldMask(op).cval == 0
    requires Moves(op, name)
    requires LegalIn(Get(s.regs, name), FieldMask(op))
    ensures Output(chip, s, op) == Masked(Get(s.regs, name), FieldMask(op))
  {
    hide Entered, FieldMask, Bus, Operand, Masked, LegalIn, AluPhase, Moves, MoveSources, Get;
    EnteredKeeps(s, op);
    MaskSelects(op);
    var e := DriveIO(Entered(s, op), op);
    var m := FieldMask(op);
    var r := Get(s.regs, name);
    RegisterKept(s, e, op, name);
    MovePasses(chip, e, op, m, name);
    MoveBus(r, name, m);
  }

  lemma RegisterKept(s: State, e: State, op: bv16, name: RegName)
    requires SameRegisters(s.regs, e.regs) && Moves(op, name)
    ensures Get(e.regs, name) == Get(s.regs, name)
  {
  }

  /** The adder's two operands: the register on its own side, nothing on the other. */
  function MoveSources(r: Digits, name: RegName): (Digits, Digits) {
    if name == RegA || name == RegC then (r, ZERO_DIGITS) else (ZERO_DIGITS, r)
  }

  lemma MovePasses(chip: Chip, e: State, op: bv16, m: Mask, name: RegName)
    requires Moves(op, name) && Selects(m)
    ensures var (x, y) := MoveSources(Get(e.regs, name), name);
            AluPhase(chip, e, op, m).regs.sout == Bus(Add, x, Operand(y, m), m)
  {
    hide Bus, Operand, Result, NewR5, ClearsCond, Destination, LoadPhase, NibblePhase, ConstantRow, Put, Selects, Decode, Moves;
    MoveDecodes(op, name);
  }

  lemma MoveDecodes(op: bv16, name: RegName)
    requires Moves(op, name)
    ensures op & 0x00F8 < 0xC0
    ensures Decode(op) == if name == RegA || name == RegC then Operation(name, NoReg, Add) else Operation(NoReg, name, Add)
  {
  }

  lemma MoveBus(r: Digits, name: RegName, m: Mask)
    requires m.cval == 0 && LegalIn(r, m)
    ensures var (x, y) := MoveSources(r, name);
            Bus(Add, x, Operand(y, m), m) == Masked(r, m)
  {
    hide Bus, Operand, Masked;
    var (x, y) := MoveSources(r, name);
    PlainBus(x, y, r, m);
  }

  lemma PlainBus(x: Digits, y: Digits, r: Digits, m: Mask)
    requires Selects(m) && m.cval == 0 && LegalIn(r, m)
    requires (x == r && y == ZERO_DIGITS) || (x == ZERO_DIGITS && y == r)
    ensures Bus(Add, x, Operand(y, m), m) == Masked(r, m)
  {
    hide RawSum, RawAt, Corrected, CarryInto;
    assert Operand(y, m) == y by {
      assert y[m.cpos := y[m.cpos]] == y;
    }
    forall i | m.start <= i <= m.end
      ensures RawAt(Add, x, y, m, i) == r[i]
    {
      AluArithmetic.SumsOfOneOperand(Add, x, y, r, m, i);
    }
  }

  lemma OutputIsAlu(op: bv16)
    requires IsOutput(op)
    ensures IsAlu(op)
  {
  }

  /**
   Any filler between the address and the latch lets the bus go: register 0 is latched instead,
   and the access goes to it.
   */
  lemma LateLatchGetsZero(chip: Chip, s: State, address: bv16, late: seq<bv16>, latch: bv16)
    requires Quiet(s) && IsOutput(address) && Fillers(late) && late != []
    requires latch == STO || latch == RCL || latch == MEMWR || latch == MEMRD
    ensures var t := Exec(chip, Run(chip, Exec(chip, s, address), late), latch);
            && FileOf(t) == FileOf(s)
            && (latch == STO ==> t.mem.regAddr == 0 && Awaits(t, ForStore))
            && (latch == RCL ==> t.mem.regAddr == 0 && Awaits(t, ForRecall))
            && (latch == MEMWR ==> t.mem.ramAddr == 0 && Awaits(t, ForWrite))
            && (latch == MEMRD ==> t.mem.ramAddr == 0 && Awaits(t, ForRead))
  {
    hide Exec, Run, Output, Fillers, IsFiller, IsAlu, IsOutput, RegisterNumber, MemAddress;
    ZerosNameRegisterZero();
    assert IsAlu(address) by {
      OutputIsAlu(address);
    }
    QuietAlu(chip, s, address);
    var s1 := Exec(chip, s, address);
    FillersAwait(chip, s1, Nothing, late);
    var s2 := Run(chip, s1, late);
    FillersDropBus(chip, s1, late);
    if latch == STO || latch == RCL {
      ScomLatched(chip, s2, latch);
    } else {
      RamLatched(chip, s2, latch);
    }
  }

  lemma ZerosNameRegisterZero()
    ensures RegisterNumber(ZERO_DIGITS) == 0 && MemAddress(ZERO_DIGITS) == 0
  {
  }

  lemma {:induction false} FillersDropBus(chip: Chip, s: State, wait: seq<bv16>)
    requires Fillers(wait) && wait != []
    ensures BusData(Run(chip, s, wait)) == ZERO_DIGITS
    decreases |wait|
  {
    hide Exec, IsFiller;
    FillerKeeps(chip, s, wait[0]);
    if |wait| == 1 {
      assert wait == [wait[0]];
      FoldOne(Executor(chip), s, wait[0]);
    } else {
      FillersDropBus(chip, Exec(chip, s, wait[0]), wait[1..]);
    }
  }
}
