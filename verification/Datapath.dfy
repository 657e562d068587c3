/**
 ALU instructions in place: the register arrays and the memory share the IO bus, the
 destination of a pass may be one of its sources, and what an access left under way completes
 when the pass is over.
 */
module Datapath {
  import opened Words
  import opened Alu
  import opened Core
  import opened RegisterFile
  import opened UserMemory

  lemma PassShape(s: State, dst: RegName, op: Op, x: Digits, y: Digits, m: Mask)
    ensures var t := Pass(s, dst, op, x, y, m);
            && t.regs == PassRegs(s.regs, dst, op, x, y, m) && ViewOf(t) == ViewOf(s).(bus := t.regs.sout)
            && t.flags.cond == (s.flags.cond && !ClearsCond(op, x, Operand(y, m), m))
  {
    hide PassRegs, ClearsCond, Operand;
  }

  lemma LoadShape(chip: Chip, s: State, dst: RegName, m: Mask)
    ensures var t := LoadPhase(chip, s, dst, m);
            var y := LoadSource(chip, s, m);
            && t.regs == PassRegs(s.regs, dst, Add, ZERO_DIGITS, y, m)
            && t.flags.cond == (s.flags.cond && !ClearsCond(Add, ZERO_DIGITS, Operand(y, m), m))
  {
    hide PassRegs, ClearsCond, Operand, LoadSource;
  }

  lemma NibbleShape(s: State, dst: RegName, op: Op, m: Mask)
    requires Selects(m)
    ensures var t := NibblePhase(s, dst, op, m);
            var loaded := Loaded(Get(s.regs, dst), m, s.regs.r5);
            && t.regs == (if dst == NoReg then s.regs else PassRegs(Put(s.regs, dst, loaded), dst, op, ZERO_DIGITS, loaded, m))
            && t.flags.cond == (s.flags.cond && (dst == NoReg || !ClearsCond(op, ZERO_DIGITS, Operand(loaded, m), m)))
            && ViewOf(t) == ViewOf(s).(bus := t.regs.sout)
  {
    hide PassRegs, ClearsCond, Operand, Loaded, Get, Put;
  }

  lemma DriveShape(s: State, opcode: bv16)
    ensures var t := DriveIO(s, opcode);
            && t.regs == s.regs && t.flags.cond == s.flags.cond && t.kr == s.kr
            && ViewOf(t) == ViewOf(s).(ioValid := ViewOf(s).ioValid || DrivesIO(opcode))
  {
  }

  lemma ExchangeShape(s: State, opcode: bv16, m: Mask)
    ensures var t := ExchangePhase(s, opcode, m);
            t.regs == ExchangeRegs(s.regs, opcode, m) && t.flags.cond == s.flags.cond && ViewOf(t) == ViewOf(s)
  {
    hide Exchanged;
  }

  lemma CompleteShape(chip: Chip, s: State, m: Mask)
    ensures var t := ReleaseBus(RamOpPhase(chip, StorePhase(CapturePhase(s, m))));
            t.regs == s.regs.(sout := ViewOf(t).bus) && t.flags.cond == s.flags.cond
  {
    hide Exchanged, ClearedRows, SpecOp, SpecAddr, RamAfterSpec, BusData;
    var u := RamOpPhase(chip, StorePhase(CapturePhase(s, m)));
    assert u.regs == s.regs && u.flags.cond == s.flags.cond;
  }

  /** A CPU never used: everything clear, COND set. */
  function Blank(): State {
    var z := ZERO_DIGITS;
    State(Registers(z, z, z, z, z, z, 0), 0, 0, 0, 0, 0, 0,
          Flags(false, false, false, false, false, false, false, false, false, false, true, false), 0, 0,
          Memory(seq<Digits>(16, _ => z), seq<Digits>(120, _ => z), 0, 0, 0, INVALID_MASK), Library(0, 0, false, None),
          Card(false, false, seq(4 * BANK_BYTES, _ => 0), seq(BANK_BYTES, _ => 0), 0, NoPass, None),
          Printer(seq(20, _ => " "), seq(20, _ => 0), 0, false, 0, None, [], []), seq(16, _ => 0), false)
  }

  class AluPath {
    const chip: Chip
    const alu: AluUnit
    const memory: MemoryUnit

    ghost predicate Valid() {
      && alu.Valid() && memory.Valid() && memory.sout == alu.Sout && memory.chip == chip
      && {memory.scom, memory.ram.data} !! {alu.A, alu.B, alu.C, alu.D, alu.E, alu.Sout}
    }

    ghost function Parts(): set<object> {
      {alu, alu.A, alu.B, alu.C, alu.D, alu.E, alu.Sout, memory, memory.scom, memory.ram.data}
    }

    /** Registers, COND, memory, bus and latches are those of the state. */
    ghost predicate Agrees(s: State)
      requires Valid()
      reads Parts()
    {
      alu.Regs() == s.regs && alu.cond == s.flags.cond && memory.AsView() == ViewOf(s)
    }

    constructor (chip: Chip)
      ensures Valid() && fresh(Parts()) && this.chip == chip
      ensures Agrees(Blank())
    {
      this.chip := chip;
      var unit := new AluUnit();
      alu := unit;
      memory := new MemoryUnit(chip, unit.Sout);
    }

    /** What the unit can read off its registers. */
    lemma Reads(s: State)
      requires Valid() && Agrees(s)
      ensures alu.cond == s.flags.cond && alu.R5 == s.regs.r5
    {
    }

    /** A state with the same registers, COND and memory agrees as well. */
    lemma Follows(s: State, t: State)
      requires Valid() && Agrees(s) && t.regs == s.regs && t.flags.cond == s.flags.cond && ViewOf(t) == ViewOf(s)
      ensures Agrees(t)
    {
    }

    method SetCond(c: bool, ghost s: State, ghost t: State)
      requires Valid() && Agrees(s) && t.regs == s.regs && ViewOf(t) == ViewOf(s) && t.flags.cond == c
      modifies alu`cond
      ensures Agrees(t)
    {
      hide ViewOf, Rows, Ram.AsRows;
      alu.cond := c;
    }

    method SetR5(r5: Byte, ghost s: State, ghost t: State)
      requires Valid() && Agrees(s) && t.regs == s.regs.(r5 := r5) && ViewOf(t) == ViewOf(s) && t.flags.cond == s.flags.cond
      modifies alu`R5
      ensures Agrees(t)
    {
      hide ViewOf, Rows, Ram.AsRows;
      alu.R5 := r5;
    }

    method EndDrive(ghost s: State, ghost t: State)
      requires Valid() && Agrees(s) && memory.ioValid && t.regs == s.regs && t.flags.cond == s.flags.cond
      requires ViewOf(t) == ViewOf(s).(ioValid := false)
      modifies memory`ioValid
      ensures Agrees(t)
    {
      hide ViewOf, Rows, Ram.AsRows;
      memory.ioValid := false;
    }

    method ClearBus(ghost s: State, ghost t: State)
      requires Valid() && Agrees(s) && !memory.ioValid && t.regs == s.regs.(sout := ZERO_DIGITS) && t.flags.cond == s.flags.cond
      requires ViewOf(t) == ViewOf(s).(bus := ZERO_DIGITS)
      modifies alu.Sout
      ensures Agrees(t)
    {
      hide ViewOf, Rows, Ram.AsRows;
      alu.ClearSout();
    }

    /** The bus is zeroed between cycles unless the last instruction drove it. */
    method NextCycle(ghost s: State, ghost t: State)
      requires Valid() && Agrees(s) && t.flags.cond == s.flags.cond
      requires t.regs == s.regs.(sout := Io(ViewOf(s))) && ViewOf(t) == ViewOf(s).(bus := Io(ViewOf(s)), ioValid := false)
      modifies alu.Sout, memory`ioValid
      ensures Agrees(t)
    {
      if memory.ioValid {
        EndDrive(s, t);
      } else {
        ClearBus(s, t);
      }
    }

    /** STO and RCL. */
    method LatchRegister(opcode: bv16, ghost s: State, ghost t: State)
      requires Valid() && Agrees(s) && t == StoreRecall(s, opcode) && t.regs == s.regs && t.flags.cond == s.flags.cond
      modifies memory`regAddr, memory`store, memory`recall
      ensures Agrees(t)
    {
      hide ViewOf, StoreRecall, Rows, Ram.AsRows;
      memory.LatchRegister(opcode, s);
    }

    /** MEMWR and MEMRD. */
    method LatchAddress(write: bool, ghost s: State, ghost t: State)
      requires Valid() && Agrees(s) && t == MemoryLatch(chip, s, write) && t.regs == s.regs && t.flags.cond == s.flags.cond
      modifies memory`ramAddr, memory`ramRead, memory`ramWrite
      ensures Agrees(t)
    {
      hide ViewOf, MemoryLatch, Rows, Ram.AsRows;
      memory.LatchAddress(write, s);
    }

    /** RAM_OP waits for its specification on the bus. */
    method ArmSpec(ghost s: State, ghost t: State)
      requires Valid() && Agrees(s) && t.regs == s.regs && t.flags.cond == s.flags.cond
      requires ViewOf(t) == ViewOf(s).(opPending := true)
      modifies memory`opPending
      ensures Agrees(t)
    {
      hide ViewOf, Rows, Ram.AsRows;
      memory.opPending := true;
    }

    /** A pass changes the memory's view of the bus, nothing else of it. */
    lemma OnlyBus(v: View, scom: seq<Byte>, rows: RamRows)
      requires Valid() && memory.scom[..] == scom && memory.ram.AsRows() == rows && |scom| == 256
      requires v == View(Rows(scom, 16), rows, memory.regAddr, memory.ramAddr, memory.ramOp, memory.ramMask, v.bus,
                         memory.recall, memory.store, memory.opPending, memory.ramRead, memory.ramWrite, memory.ioValid)
      ensures memory.AsView() == v.(bus := alu.Regs().sout)
    {
      hide Rows, Ram.AsRows;
    }

    lemma ViewIs() returns (scom: seq<Byte>, rows: RamRows)
      requires Valid()
      ensures memory.scom[..] == scom && memory.ram.AsRows() == rows && |scom| == 256
      ensures memory.AsView() == View(Rows(scom, 16), rows, memory.regAddr, memory.ramAddr, memory.ramOp, memory.ramMask, memory.sout[..],
                         memory.recall, memory.store, memory.opPending, memory.ramRead, memory.ramWrite, memory.ioValid)
      ensures memory.AsView().bus == alu.Regs().sout
    {
      hide Rows, Ram.AsRows;
      scom, rows := memory.scom[..], memory.ram.AsRows();
    }

    /** One pass of the ALU, and what it leaves of the memory's view. */
    method PassOnly(dst: RegName, op: Op, x: array?<Byte>, y: array?<Byte>, m: Mask)
      requires Valid() && m.end < 16
      requires x != null ==> x.Length == 16
      requires y != null ==> y.Length == 16
      requires x != alu.Sout && y != alu.Sout
      modifies Parts()
      ensures alu.Regs() == PassRegs(old(alu.Regs()), dst, op, old(AluUnit.Contents(x)), old(AluUnit.Contents(y)), m)
      ensures alu.cond == (old(alu.cond) && !ClearsCond(op, old(AluUnit.Contents(x)), Operand(old(AluUnit.Contents(y)), m), m))
      ensures memory.AsView() == old(memory.AsView()).(bus := alu.Regs().sout)
    {
      hide PassRegs, ClearsCond, Operand, Get, Put, Rows, Ram.AsRows, MemoryUnit.AsView, AluUnit.Contents;
      ghost var scom, rows := ViewIs();
      alu.Pass(dst, op, x, y, m);
      OnlyBus(old(memory.AsView()), scom, rows);
    }

    /** One pass into a register, from the arrays given. */
    method PassInto(dst: RegName, op: Op, x: array?<Byte>, y: array?<Byte>, m: Mask, ghost s: State)
      requires Valid() && Agrees(s) && m.end < 16
      requires x != null ==> x.Length == 16
      requires y != null ==> y.Length == 16
      requires x != alu.Sout && y != alu.Sout
      modifies Parts()
      ensures Agrees(Pass(s, dst, op, old(AluUnit.Contents(x)), old(AluUnit.Contents(y)), m))
    {
      hide PassRegs, ClearsCond, Operand, Get, Put, Pass, ViewOf, MemoryUnit.AsView, AluUnit.Contents;
      PassShape(s, dst, op, AluUnit.Contents(x), AluUnit.Contents(y), m);
      PassOnly(dst, op, x, y, m);
    }

    /** A pass with a constant-ROM row as its second source. */
    method PassConstant(dst: RegName, op: Op, x: array<Byte>, kr: bv16, m: Mask, ghost s: State)
      requires Valid() && Agrees(s) && m.end < 16 && x.Length == 16 && x != alu.Sout
      modifies Parts()
      ensures Agrees(Pass(s, dst, op, old(x[..]), chip.constants(ConstantRow(kr)), m))
    {
      hide Pass, ViewOf, Rows, ConstantRow;
      var constant := chip.constants(ConstantRow(kr));
      var row := new Byte[16](i requires 0 <= i < 16 => constant[i]);
      assert row[..] == constant;
      PassInto(dst, op, x, row, m, s);
    }

    /** A pass that adds a row of digits to nothing. */
    method AddRow(dst: RegName, row: Digits, m: Mask)
      requires Valid() && m.end < 16
      modifies Parts()
      ensures alu.Regs() == PassRegs(old(alu.Regs()), dst, Add, ZERO_DIGITS, row, m)
      ensures alu.cond == (old(alu.cond) && !ClearsCond(Add, ZERO_DIGITS, Operand(row, m), m))
      ensures memory.AsView() == old(memory.AsView()).(bus := alu.Regs().sout)
    {
      hide PassRegs, ClearsCond, Operand, Get, Put, MemoryUnit.AsView;
      var digits := new Byte[16](i requires 0 <= i < 16 => row[i]);
      assert digits[..] == row;
      PassOnly(dst, Add, null, digits, m);
    }

    /** MOV dst,#0, which a pending recall or RAM read overrides. */
    method PassLoad(dst: RegName, m: Mask, ghost s: State)
      requires Valid() && Agrees(s) && Selects(m)
      modifies Parts()
      ensures Agrees(LoadPhase(chip, s, dst, m))
    {
      hide PassRegs, ClearsCond, Operand, LoadPhase, LoadSource, ViewOf, Rows, Ram.AsRows;
      LoadShape(chip, s, dst, m);
      var y := memory.Load(dst, m, s);
      AddRow(dst, y, m);
    }

    method LoadNibble(dst: RegName, op: Op, m: Mask)
      requires Valid() && Selects(m) && dst != NoReg
      modifies Parts()
      ensures var was := old(alu.Regs());
              var loaded := Loaded(Get(was, dst), m, was.r5);
              && alu.Regs() == PassRegs(Put(was, dst, loaded), dst, op, ZERO_DIGITS, loaded, m)
              && alu.cond == (old(alu.cond) && !ClearsCond(op, ZERO_DIGITS, Operand(loaded, m), m))
      ensures memory.AsView() == old(memory.AsView()).(bus := alu.Regs().sout)
    {
      hide PassRegs, ClearsCond, Operand, Loaded, Get, Put, Selects, Rows, Ram.AsRows, MemoryUnit.AsView;
      ghost var scom, rows := ViewIs();
      alu.LoadR5(dst, m, op);
      OnlyBus(old(memory.AsView()), scom, rows);
    }

    /** MOV dst,R5; destinations without a register make it a no-op. */
    method PassNibble(dst: RegName, op: Op, m: Mask, ghost s: State)
      requires Valid() && Agrees(s) && Selects(m)
      modifies Parts()
      ensures Agrees(NibblePhase(s, dst, op, m))
    {
      hide PassRegs, ClearsCond, Operand, Loaded, Get, Put, NibblePhase, ViewOf, MemoryUnit.AsView, Selects;
      NibbleShape(s, dst, op, m);
      ghost var scom, rows := ViewIs();
      if dst != NoReg {
        LoadNibble(dst, op, m);
      }
    }

    /** The pass an ALU opcode asks for. */
    method RunPass(opcode: bv16, kr: bv16, m: Mask, ghost s: State)
      requires Valid() && Agrees(s) && Selects(m) && s.kr == kr
      modifies Parts()
      ensures Agrees(AluPhase(chip, s, opcode, m))
    {
      hide Pass, LoadPhase, NibblePhase, ConstantRow, Decode, ViewOf, Rows;
      var dst := Destination(opcode);
      match opcode & 0x00F8 {
        case 0xC0 => PassConstant(dst, Add, alu.A, kr, m, s);
        case 0xC8 => PassConstant(dst, Sub, alu.A, kr, m, s);
        case 0xD0 => PassLoad(dst, m, s);
        case 0xD8 => PassInto(dst, Sub, null, null, m, s);
        case 0xE0 => PassConstant(dst, Add, alu.C, kr, m, s);
        case 0xE8 => PassConstant(dst, Sub, alu.C, kr, m, s);
        case 0xF0 => PassNibble(dst, Add, m, s);
        case 0xF8 => PassNibble(dst, Sub, m, s);
        case _ =>
          var o := Decode(opcode);
          PassInto(dst, o.op, alu.ArrayOf(o.x), alu.ArrayOf(o.y), m, s);
      }
    }

    /** The instruction drives the IO bus or not. */
    method DriveBus(opcode: bv16, ghost s: State)
      requires Valid() && Agrees(s)
      modifies memory`ioValid
      ensures Agrees(DriveIO(s, opcode))
    {
      hide DriveIO, ViewOf, Rows, Ram.AsRows;
      DriveShape(s, opcode);
      if DrivesIO(opcode) {
        memory.ioValid := true;
      }
    }

    method RunExchange(opcode: bv16, m: Mask, ghost s: State)
      requires Valid() && Agrees(s) && m.end < 16
      modifies Parts()
      ensures Agrees(ExchangePhase(s, opcode, m))
    {
      hide ExchangeRegs, ExchangePhase, ViewOf, Rows, Ram.AsRows;
      ExchangeShape(s, opcode, m);
      alu.Exchange(opcode, m);
    }

    /** What an access left to complete. */
    method Complete(m: Mask, ghost s: State)
      requires Valid() && Agrees(s) && Selects(m)
      modifies Parts()
      ensures Agrees(ReleaseBus(RamOpPhase(chip, StorePhase(CapturePhase(s, m)))))
    {
      hide CapturePhase, StorePhase, RamOpPhase, ReleaseBus, ViewOf, Rows, Ram.AsRows;
      CompleteShape(chip, s, m);
      memory.Complete(m, s);
    }

    lemma Exist()
      requires Valid()
      ensures forall o :: o in Parts() ==> allocated(o)
    {
    }

    /** An ALU instruction: the bus driven or not, the pass, the exchange, and what an access left to complete. */
    method ExecAlu(opcode: bv16, kr: bv16, ghost s: State)
      requires Valid() && Agrees(s) && IsAlu(opcode) && s.kr == kr
      modifies Parts()
      ensures Agrees(ExecuteAlu(chip, s, opcode))
    {
      hide AluPhase, ExchangePhase, CapturePhase, StorePhase, RamOpPhase, ReleaseBus, DriveIO, FieldMask, ViewOf, AluPath.Agrees,
           AluPath.Valid;
      Exist();
      FieldSelects(opcode);
      var m := FieldMask(opcode);
      DriveShape(s, opcode);
      DriveBus(opcode, s);
      ghost var t := DriveIO(s, opcode);
      RunPass(opcode, kr, m, t);
      t := AluPhase(chip, t, opcode, m);
      RunExchange(opcode, m, t);
      Complete(m, ExchangePhase(t, opcode, m));
    }
  }

  lemma FieldSelects(opcode: bv16)
    requires IsAlu(opcode)
    ensures Selects(FieldMask(opcode))
  {
  }
}
