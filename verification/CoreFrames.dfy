/** Which instructions leave the printer and the card reader alone. */
module CoreFrames {
  import opened Words
  import opened Alu
  import opened Core

  predicate IsPeripheral(op: bv16) {
    !IsBranch(op) && High(op) == 0x0A00 && op & 0x000F == 0x8
  }

  /** OUT PRT, OUT PRT_FUNC, PRT_CLEAR, PRT_STEP, PRT_PRINT and PRT_FEED. */
  predicate IsPrintOp(op: bv16) {
    IsPeripheral(op) &&
    (Argument(op) == 0x6 || Argument(op) == 0x7 || Argument(op) == 0x8 || Argument(op) == 0x9 || Argument(op) == 0xA || Argument(op) == 0xB)
  }

  /** IN CRD, OUT CRD, CRD_OFF, CRD_READ and CRD_WRITE. */
  predicate IsCardOp(op: bv16) {
    IsPeripheral(op) &&
    (Argument(op) == 0x2 || Argument(op) == 0x3 || Argument(op) == 0x4 || Argument(op) == 0x5 || Argument(op) == 0xC)
  }

  predicate KeepsPrinter(s: State, t: State) {
    t.prn == s.prn && t.flags.busy == s.flags.busy
  }

  /** The card and its switch; only TST BUSY's note that the ROM waits for a card may differ. */
  predicate KeepsCard(s: State, t: State) {
    t.key == s.key && t.card == s.card.(waiting := t.card.waiting)
  }

  predicate KeepsBoth(s: State, t: State) {
    KeepsPrinter(s, t) && KeepsCard(s, t)
  }

  lemma AluKeepsBoth(chip: Chip, s: State, op: bv16)
    requires IsAlu(op)
    ensures KeepsBoth(s, ExecuteAlu(chip, s, op))
  {
    hide AluPhase, RamOpPhase, FieldMask, ExchangeRegs, BusData;
    var m := FieldMask(op);
    SelectsField(op);
    PhaseKeepsBoth(chip, DriveIO(s, op), op, m);
    var t := StorePhase(CapturePhase(ExchangePhase(AluPhase(chip, DriveIO(s, op), op, m), op, m), m));
    RamPhaseKeepsBoth(chip, t);
  }

  lemma SelectsField(op: bv16)
    requires IsAlu(op)
    ensures Selects(FieldMask(op))
  {
  }

  lemma PhaseKeepsBoth(chip: Chip, s: State, op: bv16, m: Mask)
    requires Selects(m)
    ensures KeepsBoth(s, AluPhase(chip, s, op, m))
  {
    hide PassRegs, ClearsCond, Operand, Loaded, Destination, Decode, ConstantRow, Get, Put, LoadSource;
  }

  lemma RamPhaseKeepsBoth(chip: Chip, s: State)
    ensures KeepsBoth(s, RamOpPhase(chip, s))
  {
    hide SpecPhase, WritePhase;
    SpecKeepsBoth(chip, s);
    WriteKeepsBoth(chip, s);
  }

  lemma SpecKeepsBoth(chip: Chip, s: State)
    ensures KeepsBoth(s, SpecPhase(chip, s))
  {
    hide SpecOp, SpecAddr, RamAfterSpec, BusData;
  }

  lemma WriteKeepsBoth(chip: Chip, s: State)
    ensures KeepsBoth(s, WritePhase(chip, s))
  {
    hide Exchanged, BusData;
  }

  lemma FlagOpKeepsBoth(s: State, op: bv16)
    ensures KeepsBoth(s, FlagOp(s, op))
  {
    hide FlagBits;
  }

  lemma KeyScanKeepsBoth(s: State, op: bv16)
    ensures KeepsBoth(s, KeyScan(s, op))
  {
    hide PressedIn, KeyCode;
  }

  lemma PlainControlKeepsBoth(s: State, op: bv16)
    ensures KeepsBoth(s, PlainControl(s, op))
  {
    hide IncKR, Argument, TestsKR;
  }

  lemma LibraryKeepsBoth(chip: Chip, s: State, op: bv16)
    ensures KeepsBoth(s, LibraryOp(chip, s, op))
  {
    hide Argument, InLib, OutLibPC, InLibPC, InLibHigh;
    InLibKeepsBoth(chip, s);
    LibPCKeepsBoth(chip, s);
  }

  lemma InLibKeepsBoth(chip: Chip, s: State)
    ensures KeepsBoth(s, InLib(chip, s)) && KeepsBoth(s, InLibHigh(chip, s))
  {
  }

  lemma LibPCKeepsBoth(chip: Chip, s: State)
    ensures KeepsBoth(s, OutLibPC(s)) && KeepsBoth(s, InLibPC(s))
  {
    hide Argument;
  }

  lemma LatchesKeepBoth(chip: Chip, s: State, op: bv16)
    ensures KeepsBoth(s, MemoryOrFlags(chip, s, op)) && KeepsBoth(s, StoreRecall(s, op)) && KeepsBoth(s, TestBusy(chip, s))
  {
    hide MemoryOrFlags, StoreRecall, TestBusy;
    MemoryOrFlagsKeepsBoth(chip, s, op);
    StoreRecallKeepsBoth(s, op);
    TestBusyKeepsBoth(chip, s);
  }

  lemma MemoryOrFlagsKeepsBoth(chip: Chip, s: State, op: bv16)
    ensures KeepsBoth(s, MemoryOrFlags(chip, s, op))
  {
    hide MemoryLatch, Argument;
    MemoryLatchKeepsBoth(chip, s, Argument(op) == 0x7);
  }

  lemma MemoryLatchKeepsBoth(chip: Chip, s: State, write: bool)
    ensures KeepsBoth(s, MemoryLatch(chip, s, write))
  {
    hide MemAddress;
  }

  lemma StoreRecallKeepsBoth(s: State, op: bv16)
    ensures KeepsBoth(s, StoreRecall(s, op))
  {
    hide Argument, RegisterNumber;
  }

  lemma TestBusyKeepsBoth(chip: Chip, s: State)
    ensures KeepsBoth(s, TestBusy(chip, s))
  {
  }

  lemma CardOpsKeepPrinter(chip: Chip, s: State)
    ensures KeepsPrinter(s, InCard(s)) && KeepsPrinter(s, OutCard(s)) && KeepsPrinter(s, CardOff(chip, s))
    ensures KeepsPrinter(s, CardRead(s)) && KeepsPrinter(s, CardWrite(s))
  {
    hide StartRead, FinishPass, PressSwitch;
  }

  lemma PrintOpsKeepCard(chip: Chip, s: State)
    ensures KeepsCard(s, OutPrint(chip, s)) && KeepsCard(s, OutPrintFunction(chip, s)) && KeepsCard(s, PrintClear(s))
    ensures KeepsCard(s, PrintStep(s)) && KeepsCard(s, PrintLine(s)) && KeepsCard(s, PrintFeed(s))
  {
    hide PutSlot, PutMnemonic, LineStarted, FeedStarted;
  }

  lemma PlainOpsKeepBoth(s: State)
    ensures KeepsBoth(s, KeyToR5(s)) && KeepsBoth(s, R5ToKey(s)) && KeepsBoth(s, ArmRamOp(s)) && KeepsBoth(s, s)
  {
  }

  lemma PeripheralKeepsPrinter(chip: Chip, s: State, op: bv16)
    requires IsPeripheral(op) && !IsPrintOp(op)
    ensures KeepsPrinter(s, Peripheral(chip, s, op))
  {
    hide InCard, OutCard, CardOff, CardRead, CardWrite, OutPrint, OutPrintFunction, PrintClear, PrintStep, PrintLine, PrintFeed;
    hide Argument, KeyToR5, R5ToKey, ArmRamOp, KeepsPrinter;
    CardOpsKeepPrinter(chip, s);
    PlainOpsKeepBoth(s);
  }

  lemma PeripheralKeepsCard(chip: Chip, s: State, op: bv16)
    requires IsPeripheral(op) && !IsCardOp(op)
    ensures KeepsCard(s, Peripheral(chip, s, op))
  {
    hide InCard, OutCard, CardOff, CardRead, CardWrite, OutPrint, OutPrintFunction, PrintClear, PrintStep, PrintLine, PrintFeed;
    hide Argument, KeyToR5, R5ToKey, ArmRamOp, KeepsCard;
    PrintOpsKeepCard(chip, s);
    PlainOpsKeepBoth(s);
  }

  lemma ControlKeeps(chip: Chip, s: State, op: bv16)
    requires !IsBranch(op) && High(op) == 0x0A00
    ensures !IsPrintOp(op) ==> KeepsPrinter(s, Control(chip, s, op))
    ensures !IsCardOp(op) ==> KeepsCard(s, Control(chip, s, op))
  {
    hide Peripheral, LibraryOp, TestBusy, PlainControl, MemoryOrFlags, StoreRecall, IsPrintOp, IsCardOp;
    PlainControlKeepsBoth(s, op);
    LibraryKeepsBoth(chip, s, op);
    LatchesKeepBoth(chip, s, op);
    if op & 0x000F == 0x8 {
      if !IsPrintOp(op) {
        PeripheralKeepsPrinter(chip, s, op);
      }
      if !IsCardOp(op) {
        PeripheralKeepsCard(chip, s, op);
      }
    }
  }

  lemma ExecuteKeeps(chip: Chip, s: State, op: bv16)
    requires !IsBranch(op)
    ensures !IsPrintOp(op) ==> KeepsPrinter(s, Execute(chip, s, op))
    ensures !IsCardOp(op) ==> KeepsCard(s, Execute(chip, s, op))
  {
    hide FlagOp, KeyScan, Control, ExecuteAlu, IsPrintOp, IsCardOp;
    if High(op) == 0x0000 {
      FlagOpKeepsBoth(s, op);
    } else if High(op) == 0x0800 {
      KeyScanKeepsBoth(s, op);
    } else if High(op) == 0x0A00 {
      ControlKeeps(chip, s, op);
    } else {
      AluKeepsBoth(chip, s, op);
    }
  }

  lemma AroundKeepsBoth(s: State, op: bv16)
    ensures KeepsBoth(s, Enter(s)) && KeepsBoth(s, Redirect(s)) && KeepsBoth(s, LatchPreg(s))
    ensures KeepsBoth(s, Branch(s, op)) && KeepsBoth(s, Restore(s, op))
  {
    hide NextAddr, LatchedPreg, LatchTaken, BranchTarget;
  }

  lemma KeptThrough(s: State, t: State, u: State)
    ensures KeepsPrinter(s, t) && KeepsPrinter(t, u) ==> KeepsPrinter(s, u)
    ensures KeepsCard(s, t) && KeepsCard(t, u) ==> KeepsCard(s, u)
  {
  }

  /** An instruction that is not for the printer (or the card) leaves it alone. */
  lemma PerformKeeps(chip: Chip, s: State, op: bv16)
    ensures !IsPrintOp(op) ==> KeepsPrinter(s, Perform(chip, s, op))
    ensures !IsCardOp(op) ==> KeepsCard(s, Perform(chip, s, op))
  {
    hide Enter, Branch, Execute, Redirect, LatchPreg, IsPrintOp, IsCardOp, KeepsPrinter, KeepsCard;
    var e := Enter(s);
    AroundKeepsBoth(s, op);
    if IsBranch(op) {
      AroundKeepsBoth(e, op);
      KeptThrough(s, e, Branch(e, op));
    } else {
      var x := Execute(chip, e, op);
      var r := Redirect(x);
      ExecuteKeeps(chip, e, op);
      AroundKeepsBoth(x, op);
      AroundKeepsBoth(r, op);
      KeptThrough(s, e, x);
      KeptThrough(s, x, r);
      KeptThrough(s, r, LatchPreg(r));
    }
  }
}
