/** Where the program goes on: branches, the next address, and the redirect KR bit 1 latches. */
module Branches {
  import opened Bits
  import opened Core
  import opened Execution
  import InstructionSet
  import Alu
  import Words
  import CoreFrames

  lemma JumpDecodes(wanted: bool, d: InstructionSet.Distance, backward: bool)
    ensures var op := InstructionSet.JumpCode(wanted, d, backward);
            && IsBranch(op) && (WantsCond(op) <==> wanted) && (GoesBack(op) <==> backward) && Offset(op) == d
  {
  }

  /**
   A branch goes its distance forward or backward when COND is as it wants, else on to the next
   address; it marks the jump and changes nothing else.
   */
  lemma JumpGoes(chip: Chip, s: State, wanted: bool, d: InstructionSet.Distance, backward: bool)
    ensures var t := Exec(chip, s, InstructionSet.Opcode(InstructionSet.Jump(wanted, d, backward)));
            && Number(t.addr) == (if s.flags.cond != wanted then Number(s.addr) + 1
                                  else if backward then Number(s.addr) - Number(d)
                                  else Number(s.addr) + Number(d)) % 65536
            && t.flags.jump && t.flags.cond == s.flags.cond && t.preg == s.preg && t.kr == s.kr
            && OnlyJumped(Entering(s, InstructionSet.Opcode(InstructionSet.Jump(wanted, d, backward))), t)
  {
    hide *;
    var op := InstructionSet.JumpCode(wanted, d, backward);
    JumpOpcode(wanted, d, backward);
    JumpDecodes(wanted, d, backward);
    BranchEnters(s, op);
    BranchGoes(chip, s, op);
    TargetIs(s.flags.cond, s.addr, op);
    TargetNumber(s.addr, d, s.flags.cond == wanted, backward);
  }

  lemma JumpOpcode(wanted: bool, d: InstructionSet.Distance, backward: bool)
    ensures InstructionSet.Opcode(InstructionSet.Jump(wanted, d, backward)) == InstructionSet.JumpCode(wanted, d, backward)
  {
    hide InstructionSet.JumpCode;
  }

  /** Where a branch goes, as words. */
  function Landing(addr: bv16, d: bv16, taken: bool, backward: bool): bv16 {
    if !taken then Plus(addr, 1) else if backward then Minus(addr, d) else Plus(addr, d)
  }

  lemma TargetNumber(addr: bv16, d: bv16, taken: bool, backward: bool)
    ensures Number(Landing(addr, d, taken, backward)) ==
            (if !taken then Number(addr) + 1 else if backward then Number(addr) - Number(d) else Number(addr) + Number(d)) % 65536
  {
    ZeroIsZero();
    hide Number, Plus, Minus;
    NumberAdds(addr, 1);
    NumberAdds(addr, d);
    NumberSubtracts(addr, d);
  }

  lemma TargetIs(cond: bool, addr: bv16, op: bv16)
    ensures BranchTarget(cond, addr, op) == Landing(addr, Offset(op), cond == WantsCond(op), GoesBack(op))
  {
    hide *;
    TargetCases(cond, addr, op);
    LandingCases(addr, Offset(op), cond == WantsCond(op), GoesBack(op));
    WordSums(addr, 1);
    WordSums(addr, Offset(op));
  }

  lemma TargetCases(cond: bool, addr: bv16, op: bv16)
    ensures cond != WantsCond(op) ==> BranchTarget(cond, addr, op) == addr + 1
    ensures cond == WantsCond(op) && GoesBack(op) ==> BranchTarget(cond, addr, op) == addr - Offset(op)
    ensures cond == WantsCond(op) && !GoesBack(op) ==> BranchTarget(cond, addr, op) == addr + Offset(op)
  {
    hide Offset, WantsCond, GoesBack;
  }

  lemma LandingCases(addr: bv16, d: bv16, taken: bool, backward: bool)
    ensures !taken ==> Landing(addr, d, taken, backward) == Plus(addr, 1)
    ensures taken && backward ==> Landing(addr, d, taken, backward) == Minus(addr, d)
    ensures taken && !backward ==> Landing(addr, d, taken, backward) == Plus(addr, d)
  {
    hide Plus, Minus;
  }

  lemma WordSums(a: bv16, b: bv16)
    ensures Plus(a, b) == a + b && Minus(a, b) == a - b
  {
  }

  /** Only the address has changed, and JUMP is on. */
  predicate OnlyJumped(e: State, t: State) {
    t == e.(addr := t.addr, flags := e.flags.(jump := true))
  }

  /** The state an instruction's own work starts from. */
  function Entering(s: State, op: bv16): State { Enter(Restore(Countdown(s), op)) }

  lemma BranchEnters(s: State, op: bv16)
    requires IsBranch(op)
    ensures var e := Entering(s, op);
            e.addr == s.addr && e.flags.cond == s.flags.cond && e.preg == s.preg && e.kr == s.kr
  {
    hide CountedDown, IsBranch;
  }

  lemma BranchGoes(chip: Chip, s: State, op: bv16)
    requires IsBranch(op)
    ensures var e, t := Entering(s, op), Exec(chip, s, op);
            && t.addr == BranchTarget(e.flags.cond, e.addr, op)
            && t.flags.jump && t.flags.cond == e.flags.cond && t.preg == e.preg && t.kr == e.kr && OnlyJumped(e, t)
  {
    hide BranchTarget, Countdown, Restore, Enter, IsBranch;
  }

  // ---------------------------------------------------------------- the other instructions

  lemma OtherEnters(s: State, op: bv16)
    ensures var e := Entering(s, op); e.addr == s.addr && e.preg == s.preg && e.kr == s.kr
  {
    hide CountedDown, IsBranch;
  }

  lemma OtherGoes(chip: Chip, s: State, op: bv16)
    requires !IsBranch(op)
    ensures Exec(chip, s, op) == LatchPreg(Redirect(Execute(chip, Entering(s, op), op)))
  {
    hide Countdown, Restore, Enter, Execute, Redirect, LatchPreg, IsBranch;
  }

  lemma NextIs(hold: bool, preg: bv16, addr: bv16)
    ensures Number(NextAddr(hold, preg, addr)) ==
            if hold then Number(addr) else if preg != 0 then Number(preg) else (Number(addr) + 1) % 65536
  {
    ZeroIsZero();
    assert NextAddr(hold, preg, addr) == if hold then addr else if preg != 0 then preg else Plus(addr, 1);
    hide Number, Plus, NextAddr;
    NumberAdds(addr, 1);
  }

  lemma Redirects(x: State)
    ensures var t := LatchPreg(Redirect(x));
            && t.flags.hold == x.flags.hold && t.addr == NextAddr(x.flags.hold, x.preg, x.addr)
            && t.preg == LatchedPreg(x.kr, if x.flags.hold then x.preg else 0) && t.kr == LatchTaken(x.kr)
  {
    hide NextAddr, LatchedPreg, LatchTaken;
  }

  /** An instruction's own work leaves the program counter and PREG alone. */
  predicate SamePlace(e: State, x: State) { x.addr == e.addr && x.preg == e.preg }

  lemma CardStays(chip: Chip, e: State)
    ensures SamePlace(e, Core.InCard(e)) && SamePlace(e, Core.OutCard(e)) && SamePlace(e, Core.CardOff(chip, e))
    ensures SamePlace(e, Core.CardRead(e)) && SamePlace(e, Core.CardWrite(e))
  {
    hide StartRead, FinishPass, PressSwitch, OnBus, KeyByte;
  }

  lemma PrinterStays(chip: Chip, e: State)
    ensures SamePlace(e, OutPrint(chip, e)) && SamePlace(e, OutPrintFunction(chip, e)) && SamePlace(e, PrintClear(e))
    ensures SamePlace(e, PrintStep(e)) && SamePlace(e, PrintLine(e)) && SamePlace(e, PrintFeed(e))
  {
    hide PutSlot, PutMnemonic, Printed, StartsLine, FeedStarted;
  }

  lemma PlainPeripheralStays(e: State)
    ensures SamePlace(e, KeyToR5(e)) && SamePlace(e, R5ToKey(e)) && SamePlace(e, ArmRamOp(e))
  {
    hide KeyNibble, WithKeyNibble;
  }

  lemma PeripheralStays(chip: Chip, e: State, op: bv16)
    ensures SamePlace(e, Peripheral(chip, e, op))
  {
    hide InCard, OutCard, CardOff, CardRead, CardWrite, OutPrint, OutPrintFunction, PrintClear, PrintStep, PrintLine, PrintFeed;
    hide Argument, KeyToR5, R5ToKey, ArmRamOp, SamePlace;
    CardStays(chip, e);
    PrinterStays(chip, e);
    PlainPeripheralStays(e);
    ItselfStays(e);
  }

  lemma ItselfStays(e: State)
    ensures SamePlace(e, e)
  {
  }

  lemma LibraryStays(chip: Chip, e: State, op: bv16)
    ensures SamePlace(e, LibraryOp(chip, e, op))
  {
    hide Argument, OnBus, ExecFetchPC, PointerDigit, PointerShifted, HighNibble;
  }

  lemma LatchesStay(chip: Chip, e: State, op: bv16)
    ensures SamePlace(e, MemoryOrFlags(chip, e, op)) && SamePlace(e, StoreRecall(e, op)) && SamePlace(e, TestBusy(chip, e))
  {
    hide Argument, MemAddress, FlagNibble, RegisterNumber, SwitchSeen;
  }

  lemma PlainStays(e: State, op: bv16)
    ensures SamePlace(e, PlainControl(e, op))
  {
    hide Argument, TestsKR, IncKR, OtherDigit, KeyFromExt;
  }

  lemma ControlStays(chip: Chip, e: State, op: bv16)
    ensures SamePlace(e, Control(chip, e, op))
  {
    hide Peripheral, LibraryOp, TestBusy, PlainControl, MemoryOrFlags, StoreRecall, SamePlace;
    PlainStays(e, op);
    LibraryStays(chip, e, op);
    LatchesStay(chip, e, op);
    PeripheralStays(chip, e, op);
  }

  lemma FlagsStay(e: State, op: bv16)
    ensures SamePlace(e, FlagOp(e, op)) && SamePlace(e, KeyScan(e, op))
  {
    hide FlagBits, PressedIn, KeyCode, ScansAll;
  }

  lemma PassStays(chip: Chip, e: State, op: bv16, m: Alu.Mask)
    requires Alu.Selects(m)
    ensures SamePlace(e, AluPhase(chip, e, op, m))
  {
    hide PassRegs, Alu.ClearsCond, Alu.Operand, Alu.Loaded, Destination, Decode, ConstantRow, Get, Put, LoadSource;
  }

  lemma PhasesStay(chip: Chip, e: State, op: bv16, m: Alu.Mask)
    ensures SamePlace(e, DriveIO(e, op)) && SamePlace(e, ExchangePhase(e, op, m)) && SamePlace(e, CapturePhase(e, m))
    ensures SamePlace(e, StorePhase(e)) && SamePlace(e, ReleaseBus(e))
  {
    hide ExchangeRegs, BusData, DrivesIO;
  }

  lemma RamOpStays(chip: Chip, e: State)
    ensures SamePlace(e, RamOpPhase(chip, e))
  {
    hide BusData, Alu.Exchanged, SpecOp, SpecAddr, RamAfterSpec;
  }

  lemma Stays2(e: State, x: State, y: State)
    requires SamePlace(e, x) && SamePlace(x, y)
    ensures SamePlace(e, y)
  {
  }

  lemma AluStays(chip: Chip, e: State, op: bv16)
    requires IsAlu(op)
    ensures SamePlace(e, ExecuteAlu(chip, e, op))
  {
    hide SamePlace, FieldMask, AluPhase, DriveIO, ExchangePhase, CapturePhase, StorePhase, RamOpPhase, ReleaseBus, IsAlu, Alu.Selects;
    var m := FieldMask(op);
    CoreFrames.SelectsField(op);
    PhasesStay(chip, e, op, m);
    var d := DriveIO(e, op);
    PassStays(chip, d, op, m);
    var a := AluPhase(chip, d, op, m);
    Stays2(e, d, a);
    PhasesStay(chip, a, op, m);
    var x := ExchangePhase(a, op, m);
    Stays2(e, a, x);
    PhasesStay(chip, x, op, m);
    var c := CapturePhase(x, m);
    Stays2(e, x, c);
    PhasesStay(chip, c, op, m);
    var w := StorePhase(c);
    Stays2(e, c, w);
    RamOpStays(chip, w);
    var r := RamOpPhase(chip, w);
    Stays2(e, w, r);
    PhasesStay(chip, r, op, m);
    Stays2(e, r, ReleaseBus(r));
  }

  lemma WorkStays(chip: Chip, e: State, op: bv16)
    requires !IsBranch(op)
    ensures SamePlace(e, Execute(chip, e, op))
  {
    hide FlagOp, KeyScan, Control, ExecuteAlu, SamePlace;
    if High(op) == 0x0000 || High(op) == 0x0800 {
      FlagsStay(e, op);
    } else if High(op) == 0x0A00 {
      ControlStays(chip, e, op);
    } else {
      AluStays(chip, e, op);
    }
  }

  /** Any other instruction goes on to the next address, or where PREG says, or holds. */
  lemma NextGoes(chip: Chip, s: State, op: bv16)
    requires op & 0x1000 == 0
    ensures var t := Exec(chip, s, op);
            Number(t.addr) == if t.flags.hold then Number(s.addr) else if s.preg != 0 then Number(s.preg) else (Number(s.addr) + 1) % 65536
  {
    hide Number, Exec, Entering, Execute, NextAddr;
    OtherGoes(chip, s, op);
    OtherEnters(s, op);
    WorkStays(chip, Entering(s, op), op);
    Redirects(Executed(chip, s, op));
    NextIs(Executed(chip, s, op).flags.hold, s.preg, s.addr);
  }

  /** The state an instruction's own work leads to. */
  function Executed(chip: Chip, s: State, op: bv16): State
    requires op & 0x1000 == 0
  {
    Execute(chip, Entering(s, op), op)
  }

  /** KR as an address. */
  function Address(kr: bv16): bv16 { (kr >> 4) | ((kr & 1) << 12) }

  lemma TopBit(kr: bv16, k: Position)
    ensures On((kr & 1) << 12, k) <==> k == 12 && On(kr, 0)
  {
  }

  lemma AddressBits(kr: bv16, k: Position)
    ensures On(Address(kr), k) <==> (k < 12 && On(kr, k + 4)) || (k == 12 && On(kr, 0))
  {
    OrBits(kr >> 4, (kr & 1) << 12, k);
    DownBits(kr, 4, k);
    TopBit(kr, k);
    hide On;
  }

  lemma LatchBits(kr: bv16, preg: bv16, k: Position)
    ensures On(kr, 1) ==> (On(LatchedPreg(kr, preg), k) <==> (k < 12 && On(kr, k + 4)) || (k == 12 && On(kr, 0)))
    ensures !On(kr, 1) ==> LatchedPreg(kr, preg) == preg
    ensures On(LatchTaken(kr), k) <==> k != 1 && On(kr, k)
  {
    hide On, LatchedPreg, LatchTaken, Address;
    LatchedWord(kr, preg);
    AddressBits(kr, k);
    TakenBits(kr, k);
  }

  lemma LatchedWord(kr: bv16, preg: bv16)
    ensures LatchedPreg(kr, preg) == if On(kr, 1) then Address(kr) else preg
  {
  }

  lemma TakenBits(kr: bv16, k: Position)
    ensures On(LatchTaken(kr), k) <==> k != 1 && On(kr, k)
  {
  }

  /**
   KR bit 1, once set, is taken as a redirect: PREG gets KR's bits 4 to 15 and its bit 0 on top, and
   the bit is clear again. Without it PREG is used up, unless the instruction holds.
   */
  lemma PregLatches(chip: Chip, s: State, op: bv16, k: Position)
    requires op & 0x1000 == 0
    ensures var x, t := Executed(chip, s, op), Exec(chip, s, op);
            && (On(x.kr, 1) ==> (On(t.preg, k) <==> (k < 12 && On(x.kr, k + 4)) || (k == 12 && On(x.kr, 0))))
            && (!On(x.kr, 1) ==> t.preg == if t.flags.hold then s.preg else 0)
            && (On(t.kr, k) <==> k != 1 && On(x.kr, k))
  {
    hide On, Exec, Entering, Execute, NextAddr, LatchedPreg, LatchTaken;
    OtherGoes(chip, s, op);
    OtherEnters(s, op);
    WorkStays(chip, Entering(s, op), op);
    var x := Executed(chip, s, op);
    Redirects(x);
    LatchBits(x.kr, if x.flags.hold then x.preg else 0, k);
  }

  /** A cycle begins with the registers, the memory and its latches as they were; the IO bus is what the last instruction drove, or clear. */
  lemma CycleBegins(s: State, op: bv16)
    ensures var e := Entering(s, op);
            && e.regs == s.regs.(sout := if s.flags.ioValid then s.regs.sout else Words.ZERO_DIGITS)
            && e.kr == s.kr && e.sr == s.sr && e.fa == s.fa && e.fb == s.fb && e.mem == s.mem && e.lib == s.lib && e.key == s.key && e.addr == s.addr
            && e.ext == (if s.flags.extValid then s.ext else 0) && e.digit == (if s.digit == 0 then 15 else s.digit - 1)
            && !e.flags.ioValid && !e.flags.extValid && !e.flags.hold && e.flags.recall == s.flags.recall && e.flags.ramRead == s.flags.ramRead
            && e.flags.cond == (s.flags.cond || (s.flags.jump && op & 0x1000 == 0)) && e.flags.jump == (s.flags.jump && op & 0x1000 != 0)
  {
    hide CountedDown;
  }

  /** Whatever an instruction's own work does stands at the end of the cycle, but for KR bit 1. */
  lemma CycleEnds(chip: Chip, s: State, op: bv16)
    requires op & 0x1000 == 0
    ensures var x, t := Executed(chip, s, op), Exec(chip, s, op);
            t == x.(addr := t.addr, preg := t.preg, kr := x.kr & 0xFFFD)
  {
    hide Exec, Entering, Execute, NextAddr, LatchedPreg;
    OtherGoes(chip, s, op);
  }
}
