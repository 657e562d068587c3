/**
 The user RAM and SCOM as the CPU keeps them: flat blocks of digits written in place, and the
 deferred operations on them. Every operation follows the state machine: a unit that agrees with
 a state before it agrees with the next state after it.
 */
module UserMemory {
  import opened Words
  import opened Alu
  import opened Core

  /** The sixteen-digit rows of a flat block. */
  function Rows(flat: seq<Byte>, n: nat): (r: seq<Digits>)
    requires |flat| == 16 * n
    ensures |r| == n
  {
    seq(n, i requires 0 <= i < n => flat[16 * i..16 * i + 16])
  }

  /** A block with sixteen digits replaced. */
  function Spliced(flat: seq<Byte>, at: nat, row: Digits): (r: seq<Byte>)
    requires at + 16 <= |flat|
    ensures |r| == |flat|
  {
    flat[..at] + row + flat[at + 16..]
  }

  lemma RowSpliced(flat: seq<Byte>, n: nat, reg: nat, row: Digits)
    requires |flat| == 16 * n && reg < n
    ensures Rows(Spliced(flat, 16 * reg, row), n) == Rows(flat, n)[reg := row]
  {
    var after := Spliced(flat, 16 * reg, row);
    forall i | 0 <= i < n
      ensures after[16 * i..16 * i + 16] == if i == reg then row else flat[16 * i..16 * i + 16]
    {
      if i < reg {
        assert 16 * i + 16 <= 16 * reg;
      }
    }
  }

  lemma RowsCleared(before: seq<Byte>, after: seq<Byte>, first: nat, count: nat)
    requires |before| == |after| == 16 * 120 && first + count <= 120
    requires forall i :: 0 <= i < |before| ==> after[i] == if 16 * first <= i < 16 * (first + count) then 0 else before[i]
    ensures Rows(after, 120) == ClearedRows(Rows(before, 120), first, count)
  {
    forall i | 0 <= i < 120
      ensures after[16 * i..16 * i + 16] == ClearedRows(Rows(before, 120), first, count)[i]
    {
      if first <= i < first + count {
        assert after[16 * i..16 * i + 16] == ZERO_DIGITS;
      } else {
        assert 16 * i + 16 <= 16 * first || 16 * (first + count) <= 16 * i;
        assert after[16 * i..16 * i + 16] == before[16 * i..16 * i + 16];
      }
    }
  }

  lemma SpliceGrows(flat: seq<Byte>, at: nat, row: Digits, i: nat)
    requires at + 16 <= |flat| && i < 16
    ensures flat[..at] + row[..i] + flat[at + i..] == Partial(flat, at, row, i)
    ensures Partial(flat, at, row, i)[at + i := row[i]] == Partial(flat, at, row, i + 1)
  {
  }

  function Partial(flat: seq<Byte>, at: nat, row: Digits, i: nat): (r: seq<Byte>)
    requires at + 16 <= |flat| && i <= 16
    ensures |r| == |flat|
  {
    flat[..at] + row[..i] + flat[at + i..]
  }

  /** memcpy of sixteen digits. */
  method CopyRow(dst: array<Byte>, at: nat, row: Digits)
    requires at + 16 <= dst.Length
    modifies dst
    ensures dst[..] == Spliced(old(dst[..]), at, row)
  {
    ghost var was := dst[..];
    assert Partial(was, at, row, 0) == was;
    var i := 0;
    while i < 16
      invariant i <= 16 && dst[..] == Partial(was, at, row, i)
    {
      SpliceGrows(was, at, row, i);
      dst[at + i] := row[i];
      i := i + 1;
    }
    assert row[..16] == row;
  }

  /** The TMC0598 RAM: 120 registers in one block. */
  class Ram {
    const data: array<Byte>

    ghost predicate Valid() {
      data.Length == 16 * 120
    }

    ghost function AsRows(): RamRows
      requires Valid()
      reads data
    {
      Rows(data[..], 120)
    }

    constructor ()
      ensures Valid() && fresh(data) && AsRows() == seq<Digits>(120, _ => ZERO_DIGITS)
    {
      data := new Byte[16 * 120](_ => 0);
      new;
      forall i | 0 <= i < 120
        ensures data[..][16 * i..16 * i + 16] == ZERO_DIGITS
      {
      }
    }

    method Zero(from: nat, end: nat)
      requires from <= end <= data.Length
      modifies data
      ensures forall i :: 0 <= i < data.Length ==> data[i] == if from <= i < end then 0 else old(data[i])
    {
      var i := from;
      while i < end
        invariant from <= i <= end
        invariant forall k :: 0 <= k < data.Length ==> data[k] == if from <= k < i then 0 else old(data[k])
      {
        data[i] := 0;
        i := i + 1;
      }
    }

    method Clear()
      requires Valid()
      modifies data
      ensures AsRows() == ClearedRows(old(AsRows()), 0, 120)
    {
      Zero(0, data.Length);
      RowsCleared(old(data[..]), data[..], 0, 120);
    }

    /** Registers past the last one are not there to be cleared. */
    method ClearReg(reg: int, count: nat)
      requires Valid()
      modifies data
      ensures AsRows() == if 0 <= reg < 120 then ClearedRows(old(AsRows()), reg, count) else old(AsRows())
    {
      if 0 <= reg < 120 {
        var n := if reg + count > 120 then 120 - reg else count;
        Zero(16 * reg, 16 * (reg + n));
        RowsCleared(old(data[..]), data[..], reg, n);
        assert ClearedRows(old(AsRows()), reg, n) == ClearedRows(old(AsRows()), reg, count);
      }
    }

    method ReadReg(reg: nat) returns (row: Digits)
      requires Valid() && reg < 120
      ensures row == AsRows()[reg]
    {
      row := data[16 * reg..16 * reg + 16];
    }

    method WriteReg(reg: nat, row: Digits)
      requires Valid() && reg < 120
      modifies data
      ensures AsRows() == old(AsRows())[reg := row]
    {
      CopyRow(data, 16 * reg, row);
      RowSpliced(old(data[..]), 120, reg, row);
    }

    /** One digit, clamped to four bits. */
    method Write(reg: nat, nibble: Nibble, val: Byte)
      requires Valid() && reg < 120
      modifies data
      ensures AsRows() == old(AsRows())[reg := old(AsRows())[reg][nibble := val % 16]]
    {
      ghost var row: Digits := data[16 * reg..16 * reg + 16][nibble := val % 16];
      RowSpliced(data[..], 120, reg, row);
      assert Spliced(data[..], 16 * reg, row) == data[..][16 * reg + nibble := val % 16];
      data[16 * reg + nibble] := val % 16;
    }
  }

  // ---------------------------------------------------------------- the unit

  /** What the memory unit sees of a state: the blocks, the bus, the latches. */
  datatype View = View(
    scom: ScomRows, ram: RamRows, regAddr: Nibble, ramAddr: Byte, ramOp: Nibble, ramMask: Mask, bus: Digits,
    recall: bool, store: bool, opPending: bool, ramRead: bool, ramWrite: bool, ioValid: bool)

  function ViewOf(s: State): View {
    View(s.mem.scom, s.mem.ram, s.mem.regAddr, s.mem.ramAddr, s.mem.ramOp, s.mem.ramMask, s.regs.sout,
         s.flags.recall, s.flags.store, s.flags.ramOp, s.flags.ramRead, s.flags.ramWrite, s.flags.ioValid)
  }

  /** The bus as it reads at the end of an instruction. */
  function Io(v: View): Digits { if v.ioValid then v.bus else ZERO_DIGITS }

  lemma LatchRegisterView(s: State, opcode: bv16)
    ensures var v, sel := ViewOf(s), Argument(opcode);
            ViewOf(StoreRecall(s, opcode)) ==
            if sel == 0 then v.(regAddr := RegisterNumber(v.bus), store := true)
            else if sel == 1 then v.(regAddr := RegisterNumber(v.bus), recall := true) else v
  {
    hide Argument, RegisterNumber;
  }

  lemma LatchAddressView(chip: Chip, s: State, write: bool)
    ensures var v, a := ViewOf(s), MemAddress(s.regs.sout);
            ViewOf(MemoryLatch(chip, s, write)) ==
            if a >= chip.ramSize then v.(ramAddr := a)
            else if write then v.(ramAddr := a, ramWrite := true) else v.(ramAddr := a, ramRead := true)
  {
    hide MemAddress;
  }

  lemma LoadView(chip: Chip, s: State, dst: RegName, m: Mask)
    ensures var v, t := ViewOf(s), LoadPhase(chip, s, dst, m);
            ViewOf(t) ==
            if v.recall then v.(recall := false, bus := t.regs.sout)
            else if v.ramRead && v.ramAddr < chip.ramSize then v.(ramRead := false, bus := t.regs.sout) else v.(bus := t.regs.sout)
  {
    hide PassRegs, LoadSource, ClearsCond, Operand;
  }

  lemma SourceView(chip: Chip, s: State, m: Mask)
    ensures var v := ViewOf(s);
            LoadSource(chip, s, m) ==
            if v.recall then Masked(v.scom[v.regAddr], m)
            else if v.ramRead && v.ramAddr < chip.ramSize then Masked(v.ram[v.ramAddr], m) else ZERO_DIGITS
  {
    hide Masked;
  }

  lemma CaptureView(s: State, m: Mask)
    ensures var v := ViewOf(s); ViewOf(CapturePhase(s, m)) == if v.ramWrite || v.ramRead then v.(ramMask := m) else v
  {
  }

  lemma StoreView(s: State)
    ensures var v := ViewOf(s);
            ViewOf(StorePhase(s)) == if v.store then v.(store := false, scom := v.scom[v.regAddr := Io(v)]) else v
  {
  }

  /** RAM_OP on a register that is there: ten registers cleared, or a write or a read latched. */
  function Executed(v: View): View {
    if v.ramOp == 4 then v.(ram := ClearedRows(v.ram, v.ramAddr, 10))
    else if v.ramOp == 1 then v.(ramWrite := true)
    else if v.ramOp == 0 then v.(ramRead := true) else v
  }

  lemma SpecView(chip: Chip, s: State)
    ensures var v := ViewOf(s);
            var op, a := SpecOp(Io(v)), SpecAddr(Io(v));
            var w := v.(opPending := false, ramOp := op, ramAddr := a);
            ViewOf(SpecPhase(chip, s)) ==
            if op == 2 then w.(ram := ClearedRows(v.ram, 0, 120))
            else if a < chip.ramSize then Executed(w) else w
  {
    hide SpecOp, SpecAddr, ClearedRows;
  }

  lemma WriteView(chip: Chip, s: State)
    ensures var v := ViewOf(s);
            ViewOf(WritePhase(chip, s)) ==
            if v.ramAddr < chip.ramSize && v.ramMask.start != 0xFF
            then v.(ramWrite := false, ram := v.ram[v.ramAddr := Exchanged(v.ram[v.ramAddr], Io(v), v.ramMask)])
            else v.(ramWrite := false)
  {
    hide Exchanged;
  }

  lemma ReleaseView(s: State)
    ensures var v := ViewOf(s); ViewOf(ReleaseBus(s)) == if v.ioValid then v else v.(bus := ZERO_DIGITS)
  {
  }

  /** SCOM, the RAM, the IO bus, and the latches of operations under way. */
  class MemoryUnit {
    const chip: Chip
    const ram: Ram
    const scom: array<Byte>
    const sout: array<Byte>
    var regAddr: Nibble
    var ramAddr: Byte
    var ramOp: Nibble
    var ramMask: Mask
    var recall: bool
    var store: bool
    var opPending: bool
    var ramRead: bool
    var ramWrite: bool
    var ioValid: bool

    ghost predicate Valid() {
      && ram.Valid() && scom.Length == 16 * 16 && sout.Length == 16
      && scom != sout && ram.data != scom && ram.data != sout
    }

    ghost function AsView(): View
      requires Valid()
      reads this, scom, sout, ram.data
    {
      View(Rows(scom[..], 16), ram.AsRows(), regAddr, ramAddr, ramOp, ramMask, sout[..],
           recall, store, opPending, ramRead, ramWrite, ioValid)
    }

    /** The bus array is the ALU's. */
    constructor (chip: Chip, sout: array<Byte>)
      requires sout.Length == 16
      ensures Valid() && fresh(ram) && fresh(ram.data) && fresh(scom) && this.sout == sout && this.chip == chip
      ensures AsView() == View(seq<Digits>(16, _ => ZERO_DIGITS), seq<Digits>(120, _ => ZERO_DIGITS), 0, 0, 0, INVALID_MASK,
                               sout[..], false, false, false, false, false, false)
    {
      this.chip, this.sout := chip, sout;
      ram := new Ram();
      scom := new Byte[16 * 16](_ => 0);
      regAddr, ramAddr, ramOp, ramMask := 0, 0, 0, INVALID_MASK;
      recall, store, opPending, ramRead, ramWrite, ioValid := false, false, false, false, false, false;
      new;
      forall i | 0 <= i < 16
        ensures scom[..][16 * i..16 * i + 16] == ZERO_DIGITS
      {
      }
    }

    /** STO and RCL. */
    method LatchRegister(opcode: bv16, ghost s: State)
      requires Valid() && AsView() == ViewOf(s)
      modifies `regAddr, `store, `recall
      ensures AsView() == ViewOf(StoreRecall(s, opcode))
    {
      hide ViewOf, StoreRecall, Rows, Argument;
      LatchRegisterView(s, opcode);
      var sel := Argument(opcode);
      if sel == 0 {
        regAddr, store := sout[0] % 16, true;
      } else if sel == 1 {
        regAddr, recall := sout[0] % 16, true;
      }
    }

    /** MEMWR and MEMRD. */
    method LatchAddress(write: bool, ghost s: State)
      requires Valid() && AsView() == ViewOf(s)
      modifies `ramAddr, `ramRead, `ramWrite
      ensures AsView() == ViewOf(MemoryLatch(chip, s, write))
    {
      hide MemoryLatch, Rows;
      LatchAddressView(chip, s, write);
      ramAddr := (sout[1] as int * 16 + sout[0]) % 0x100;
      hide ViewOf;
      if ramAddr < chip.ramSize {
        if write {
          ramWrite := true;
        } else {
          ramRead := true;
        }
      }
    }

    /** The field of a row, zeros around it. */
    static method MaskedRow(src: array<Byte>, at: nat, m: Mask) returns (row: Digits)
      requires at + 16 <= src.Length && m.start <= m.end <= 15
      ensures row == Masked(src[at..at + 16], m)
    {
      var digits := new Byte[16](_ => 0);
      var i: int := m.start;
      while i <= m.end
        invariant m.start <= i <= m.end + 1
        invariant forall k :: 0 <= k < 16 ==> digits[k] == if m.start <= k < i then src[at + k] else 0
      {
        digits[i] := src[at + i];
        i := i + 1;
      }
      row := digits[..];
    }

    /** What MOV dst,#0 puts into the ALU: a recalled SCOM field, a RAM field read, or nothing. */
    method Load(dst: RegName, m: Mask, ghost s: State) returns (row: Digits)
      requires Valid() && AsView() == ViewOf(s) && Selects(m)
      modifies `recall, `ramRead
      ensures row == LoadSource(chip, s, m)
      ensures AsView().(bus := LoadPhase(chip, s, dst, m).regs.sout) == ViewOf(LoadPhase(chip, s, dst, m))
    {
      hide ViewOf, Masked, LoadPhase, LoadSource;
      LoadView(chip, s, dst, m);
      SourceView(chip, s, m);
      row := ZERO_DIGITS;
      if recall {
        recall := false;
        row := MaskedRow(scom, 16 * regAddr, m);
      } else if ramRead && ramAddr < chip.ramSize {
        ramRead := false;
        row := MaskedRow(ram.data, 16 * ramAddr, m);
      }
    }

    /** The field of a MEMWR, MEMRD or RAM_OP access under way. */
    method Capture(m: Mask, ghost s: State)
      requires Valid() && AsView() == ViewOf(s)
      modifies `ramMask
      ensures AsView() == ViewOf(CapturePhase(s, m))
    {
      hide ViewOf, CapturePhase, Rows;
      CaptureView(s, m);
      if ramWrite || ramRead {
        ramMask := m;
      }
    }

    method IoData() returns (row: Digits)
      requires Valid()
      ensures row == Io(AsView())
    {
      row := if ioValid then sout[..] else ZERO_DIGITS;
    }

    /** A store under way writes the bus into SCOM. */
    method FinishStore(ghost s: State)
      requires Valid() && AsView() == ViewOf(s)
      modifies `store, scom
      ensures AsView() == ViewOf(StorePhase(s))
    {
      hide ViewOf, StorePhase, Rows, Io;
      StoreView(s);
      if store {
        var io := IoData();
        store := false;
        CopyRow(scom, 16 * regAddr, io);
        RowSpliced(old(scom[..]), 16, regAddr, io);
      }
    }

    /** The operation and the register on the bus. */
    method Spec() returns (op: Nibble, addr: Byte)
      requires Valid()
      ensures op == SpecOp(Io(AsView())) && addr == SpecAddr(Io(AsView()))
    {
      hide Rows, Io, Ram.AsRows;
      var io := IoData();
      op, addr := io[0] % 16, (io[3] as int * 10 + io[2]) % 0x100;
    }

    method Execute()
      requires Valid() && ramAddr < 120
      modifies `ramRead, `ramWrite, ram.data
      ensures AsView() == Executed(old(AsView()))
    {
      hide Rows, ClearedRows, Ram.AsRows;
      if ramOp == 4 {
        ram.ClearReg(ramAddr, 10);
      } else if ramOp == 1 {
        ramWrite := true;
      } else if ramOp == 0 {
        ramRead := true;
      }
    }

    /** RAM_OP's specification: a clear happens at once, a read or write is latched. */
    method DecodeSpec(ghost s: State)
      requires Valid() && AsView() == ViewOf(s) && opPending
      modifies `opPending, `ramOp, `ramAddr, `ramRead, `ramWrite, ram.data
      ensures AsView() == ViewOf(SpecPhase(chip, s))
    {
      hide ViewOf, SpecPhase, SpecOp, SpecAddr, Executed, Rows, ClearedRows, Io, Ram.AsRows;
      SpecView(chip, s);
      var op, addr := Spec();
      opPending, ramOp, ramAddr := false, op, addr;
      if ramOp == 2 {
        ram.Clear();
      } else if ramAddr < chip.ramSize {
        Execute();
      }
    }

    /** The field of one row over another, digit by digit. */
    static method Merge(row: Digits, io: Digits, m: Mask) returns (merged: Digits)
      ensures merged == Exchanged(row, io, m)
    {
      merged := row;
      var i: int := m.start;
      while i <= m.end && i < 16
        invariant m.start <= i
        invariant forall k :: 0 <= k < 16 ==> merged[k] == if m.start <= k < i && k <= m.end then io[k] else row[k]
      {
        merged := merged[i := io[i]];
        i := i + 1;
      }
    }

    /** The latched write: the bus into the captured field of the register, through a copy of it. */
    method FinishWrite(ghost s: State)
      requires Valid() && AsView() == ViewOf(s) && ramWrite
      modifies `ramWrite, ram.data
      ensures AsView() == ViewOf(WritePhase(chip, s))
    {
      hide ViewOf, WritePhase, Rows, Io, Exchanged, Ram.AsRows;
      WriteView(chip, s);
      var io := IoData();
      ramWrite := false;
      if ramAddr < chip.ramSize && ramMask.start != 0xFF {
        var row := ram.ReadReg(ramAddr);
        row := Merge(row, io, ramMask);
        ram.WriteReg(ramAddr, row);
      }
    }

    /** The bus is zeroed between cycles unless it was driven. */
    method Release(ghost s: State)
      requires Valid() && AsView() == ViewOf(s)
      modifies sout
      ensures AsView() == ViewOf(ReleaseBus(s))
    {
      hide ViewOf, ReleaseBus, Rows;
      ReleaseView(s);
      if !ioValid {
        CopyRow(sout, 0, ZERO_DIGITS);
      }
    }

    /** What every ALU instruction does to the memory once its own pass is over. */
    method Complete(m: Mask, ghost s: State)
      requires Valid() && AsView() == ViewOf(s)
      modifies this, scom, sout, ram.data
      ensures AsView() == ViewOf(ReleaseBus(RamOpPhase(chip, StorePhase(CapturePhase(s, m)))))
    {
      hide CapturePhase, StorePhase, SpecPhase, WritePhase, ReleaseBus, Rows, Ram.AsRows;
      Capture(m, s);
      ghost var t := CapturePhase(s, m);
      FinishStore(t);
      t := StorePhase(t);
      if opPending {
        DecodeSpec(t);
      } else if ramWrite {
        FinishWrite(t);
      }
      Release(RamOpPhase(chip, t));
    }
  }
}
