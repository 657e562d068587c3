/**
 The arithmetic instructions as the instruction set names them: which registers they read and
 write, and the number the field then holds.
 */
module AluEffects {
  import opened Words
  import opened Bits
  import opened Alu
  import opened Core
  import opened FlagEffects
  import CoreFrames
  import AluArithmetic
  import I = InstructionSet

  // ---------------------------------------------------------------- fields

  function MaskOf(f: I.Field): Mask {
    var (lo, hi, kpos, k) := I.Bounds(f);
    Mask(lo, hi, kpos, k)
  }

  lemma Decodes(form: I.Form, field: I.Field, target: I.Target)
    ensures var op := I.ComputeCode(form, field, target);
            && High(op) == I.FieldCode(field) && Index(op) == I.FormCode(form) && op & 0x0007 == I.TargetCode(target)
            && !IsBranch(op) && IsAlu(op)
  {
    FieldBits(field);
    FormBits(form);
    TargetBits(target);
    Together(I.FieldCode(field), I.FormCode(form), I.TargetCode(target));
    hide I.FieldCode, I.FormCode, I.TargetCode;
  }

  lemma FieldBits(f: I.Field)
    ensures var c := I.FieldCode(f); c & 0x0F00 == c && c != 0 && c != 0x0800 && c != 0x0A00
  {
  }

  lemma FormBits(f: I.Form)
    ensures I.FormCode(f) & 0x00F8 == I.FormCode(f)
  {
  }

  lemma TargetBits(t: I.Target)
    ensures I.TargetCode(t) & 0x0007 == I.TargetCode(t)
  {
  }

  lemma Together(a: bv16, b: bv16, c: bv16)
    requires a & 0x0F00 == a && b & 0x00F8 == b && c & 0x0007 == c
    ensures var op := a | b | c;
            op & 0x0F00 == a && op & 0x00F8 == b && op & 0x0007 == c && op & 0x1000 == 0
  {
  }

  lemma FieldIs(op: bv16, f: I.Field)
    requires High(op) == I.FieldCode(f)
    ensures FieldMask(op) == MaskOf(f) && Selects(MaskOf(f))
  {
    hide High;
  }

  // ---------------------------------------------------------------- operands

  function FirstOf(r: Registers, x: I.First): Digits { if x == I.FirstA then r.a else r.c }

  function SecondOf(r: Registers, y: I.Second): Digits { if y == I.SecondB then r.b else r.d }

  /** The constant-ROM row KR names: bits 4 to 6 below bits 8 to 10; with bit 11 on, row 0. */
  ghost predicate RowNamed(kr: bv16, row: bv16) {
    if On(kr, 11) then row == 0
    else forall k: Position :: On(row, k) <==> (k < 3 && On(kr, k + 4)) || (3 <= k < 6 && On(kr, k + 5))
  }

  lemma RowBits(kr: bv16, k: Position)
    ensures On(kr, 11) ==> ConstantRow(kr) == 0
    ensures !On(kr, 11) ==> (On(ConstantRow(kr), k) <==> (k < 3 && On(kr, k + 4)) || (3 <= k < 6 && On(kr, k + 5)))
  {
  }

  lemma RowIs(kr: bv16)
    ensures RowNamed(kr, ConstantRow(kr))
  {
    forall k: Position ensures !On(kr, 11) ==> (On(ConstantRow(kr), k) <==> (k < 3 && On(kr, k + 4)) || (3 <= k < 6 && On(kr, k + 5))) {
      RowBits(kr, k);
    }
    RowBits(kr, 0);
    hide On, ConstantRow;
  }

  function Operate(f: I.Form): Op {
    match f
    case ShiftX(_, right) => if right then Shr else Shl
    case ShiftY(_, right) => if right then Shr else Shl
    case OneX(_, minus) => if minus then Sub else Add
    case OneY(_, minus) => if minus then Sub else Add
    case Both(_, _, minus) => if minus then Sub else Add
    case Row(_, minus) => if minus then Sub else Add
    case Nothing(minus) => if minus then Sub else Add
    case Nibble(minus) => if minus then Sub else Add
  }

  function FirstSource(e: State, f: I.Form): Digits {
    match f
    case OneX(x, _) => FirstOf(e.regs, x)
    case ShiftX(x, _) => FirstOf(e.regs, x)
    case Both(x, _, _) => FirstOf(e.regs, x)
    case Row(x, _) => FirstOf(e.regs, x)
    case _ => ZERO_DIGITS
  }

  /** A plain zero load takes the SCOM row a recall has waiting, or the RAM row a read has. */
  function SecondSource(chip: Chip, e: State, f: I.Form, m: Mask): Digits {
    match f
    case OneY(y, _) => SecondOf(e.regs, y)
    case ShiftY(y, _) => SecondOf(e.regs, y)
    case Both(_, y, _) => SecondOf(e.regs, y)
    case Row(_, _) => chip.constants(ConstantRow(e.kr))
    case Nothing(minus) =>
      if minus then ZERO_DIGITS
      else if e.flags.recall then Masked(e.mem.scom[e.mem.regAddr], m)
      else if e.flags.ramRead && e.mem.ramAddr < chip.ramSize then Masked(e.mem.ram[e.mem.ramAddr], m)
      else ZERO_DIGITS
    case _ => ZERO_DIGITS
  }

  function RegisterOf(t: I.Target): RegName {
    match t
    case ToA => RegA
    case ToB => RegB
    case ToC => RegC
    case ToD => RegD
    case _ => NoReg
  }

  lemma TargetIs(op: bv16, t: I.Target)
    requires op & 0x0007 == I.TargetCode(t)
    ensures Destination(op) == RegisterOf(t) && (DrivesIO(op) <==> t == I.ToIO)
  {
  }

  /** One pass, and what it leaves of COND. */
  predicate PassDone(e: State, t: State, dst: RegName, op: Op, x: Digits, y: Digits, m: Mask) {
    t.regs == PassRegs(e.regs, dst, op, x, y, m) && t.flags.cond == (e.flags.cond && !ClearsCond(op, x, Operand(y, m), m))
  }

  function Index(op: bv16): bv16 { op & 0x00F8 }

  function FirstName(x: I.First): RegName { if x == I.FirstA then RegA else RegC }

  function SecondName(y: I.Second): RegName { if y == I.SecondB then RegB else RegD }

  /** The forms whose sources are registers. */
  predicate OfRegisters(f: I.Form) { f.OneX? || f.OneY? || f.ShiftX? || f.ShiftY? || f.Both? }

  function Named(f: I.Form): Operation
    requires OfRegisters(f)
  {
    match f
    case OneX(x, _) => Operation(FirstName(x), NoReg, Operate(f))
    case OneY(y, _) => Operation(NoReg, SecondName(y), Operate(f))
    case ShiftX(x, _) => Operation(FirstName(x), NoReg, Operate(f))
    case ShiftY(y, _) => Operation(NoReg, SecondName(y), Operate(f))
    case Both(x, y, _) => Operation(FirstName(x), SecondName(y), Operate(f))
  }

  lemma CodesBelow(f: I.Form)
    ensures OfRegisters(f) ==> I.FormCode(f) < 0xC0
  {
  }

  /** The decoder's table is the instruction set's. */
  lemma DecodesForm(op: bv16, f: I.Form)
    requires Index(op) == I.FormCode(f) && OfRegisters(f)
    ensures Decode(op) == Named(f)
  {
    DecodesIndex(op);
    DecodedForm(f);
    hide Decode, Index, Named, I.FormCode, DecodeIndex;
  }

  /** The decoder looks at nothing but the index. */
  function DecodeIndex(i: bv16): Operation { Decode(i) }

  lemma DecodesIndex(op: bv16)
    ensures Decode(op) == DecodeIndex(Index(op))
  {
    assert (op & 0x00F8) & 0x00F8 == op & 0x00F8;
  }

  lemma DecodedForm(f: I.Form)
    requires OfRegisters(f)
    ensures DecodeIndex(I.FormCode(f)) == Named(f)
  {
    match f
    case OneX(x, minus) => { }
    case OneY(y, minus) => { }
    case ShiftX(x, right) => { }
    case ShiftY(y, right) => { }
    case Both(x, y, minus) => { }
  }

  lemma NamedSources(chip: Chip, e: State, f: I.Form, m: Mask)
    requires OfRegisters(f)
    ensures Named(f).op == Operate(f) && Get(e.regs, Named(f).x) == FirstSource(e, f) && Get(e.regs, Named(f).y) == SecondSource(chip, e, f, m)
  {
    hide Masked, ConstantRow;
  }

  lemma PhaseIs(chip: Chip, e: State, op: bv16, f: I.Form, m: Mask)
    requires Index(op) == I.FormCode(f) && Selects(m) && !f.Nibble?
    ensures PassDone(e, AluPhase(chip, e, op, m), Destination(op), Operate(f), FirstSource(e, f), SecondSource(chip, e, f, m), m)
  {
    hide PassDone, Destination, Selects, AluPhase;
    if OfRegisters(f) {
      RegisterPhase(chip, e, op, f, m);
    } else if f.Row? {
      RowPhase(chip, e, op, f, m);
    } else {
      NothingPhase(chip, e, op, f, m);
    }
  }

  lemma RegisterPhase(chip: Chip, e: State, op: bv16, f: I.Form, m: Mask)
    requires Index(op) == I.FormCode(f) && Selects(m) && OfRegisters(f)
    ensures PassDone(e, AluPhase(chip, e, op, m), Destination(op), Operate(f), FirstSource(e, f), SecondSource(chip, e, f, m), m)
  {
    CodesBelow(f);
    DecodesForm(op, f);
    NamedSources(chip, e, f, m);
    PassedRegisters(chip, e, op, m);
    hide Index, I.FormCode, OfRegisters, Named, Decode, Operate, FirstSource, SecondSource, AluPhase, PassDone, Destination, Selects, Get;
  }

  lemma PassedRegisters(chip: Chip, e: State, op: bv16, m: Mask)
    requires Index(op) < 0xC0 && Selects(m)
    ensures var o := Decode(op);
            PassDone(e, AluPhase(chip, e, op, m), Destination(op), o.op, Get(e.regs, o.x), Get(e.regs, o.y), m)
  {
    hide PassRegs, ClearsCond, Operand, Selects, Destination, Decode, Get, LoadPhase, NibblePhase, ConstantRow;
  }

  lemma RowPhase(chip: Chip, e: State, op: bv16, f: I.Form, m: Mask)
    requires Index(op) == I.FormCode(f) && Selects(m) && f.Row?
    ensures PassDone(e, AluPhase(chip, e, op, m), Destination(op), Operate(f), FirstSource(e, f), SecondSource(chip, e, f, m), m)
  {
    hide PassRegs, ClearsCond, Operand, Selects, Destination, Decode, Get, LoadPhase, NibblePhase, ConstantRow;
  }

  lemma NothingPhase(chip: Chip, e: State, op: bv16, f: I.Form, m: Mask)
    requires Index(op) == I.FormCode(f) && Selects(m) && f.Nothing?
    ensures PassDone(e, AluPhase(chip, e, op, m), Destination(op), Operate(f), FirstSource(e, f), SecondSource(chip, e, f, m), m)
  {
    hide PassRegs, ClearsCond, Operand, Selects, Destination, Decode, Get, NibblePhase, ConstantRow, Masked;
  }

  lemma NibbleIs(chip: Chip, e: State, op: bv16, f: I.Form, m: Mask)
    requires Index(op) == I.FormCode(f) && Selects(m) && f.Nibble?
    ensures AluPhase(chip, e, op, m) == NibblePhase(e, Destination(op), Operate(f), m)
  {
    hide PassRegs, Selects, Destination, Decode, Get, LoadPhase, NibblePhase, ConstantRow;
  }

  // ---------------------------------------------------------------- the whole instruction

  predicate SameInside(x: State, t: State) {
    t.regs == x.regs && t.flags.cond == x.flags.cond && t.flags.ioValid == x.flags.ioValid
  }

  lemma CaptureKeeps(x: State, m: Mask)
    ensures SameInside(x, CapturePhase(x, m))
  {
  }

  lemma StoreKeeps(x: State)
    ensures SameInside(x, StorePhase(x))
  {
    hide BusData;
  }

  lemma SpecKeeps(chip: Chip, x: State)
    ensures SameInside(x, SpecPhase(chip, x))
  {
    hide SpecOp, SpecAddr, RamAfterSpec, BusData;
  }

  lemma WriteKeeps(chip: Chip, x: State)
    ensures SameInside(x, WritePhase(chip, x))
  {
    hide Exchanged, BusData;
  }

  lemma MemoryPhasesKeep(chip: Chip, x: State, m: Mask)
    ensures SameInside(x, RamOpPhase(chip, StorePhase(CapturePhase(x, m))))
  {
    hide CapturePhase, StorePhase, SpecPhase, WritePhase;
    CaptureKeeps(x, m);
    StoreKeeps(CapturePhase(x, m));
    SpecKeeps(chip, StorePhase(CapturePhase(x, m)));
    WriteKeeps(chip, StorePhase(CapturePhase(x, m)));
  }

  lemma ReleaseKeeps(x: State)
    ensures var t := ReleaseBus(x);
            && t.regs == x.regs.(sout := if x.flags.ioValid then x.regs.sout else ZERO_DIGITS)
            && t.flags.cond == x.flags.cond && t.flags.ioValid == x.flags.ioValid
  {
  }

  lemma LatePhases(chip: Chip, x: State, m: Mask)
    ensures var t := ReleaseBus(RamOpPhase(chip, StorePhase(CapturePhase(x, m))));
            && t.regs == x.regs.(sout := if x.flags.ioValid then x.regs.sout else ZERO_DIGITS)
            && t.flags.cond == x.flags.cond && t.flags.ioValid == x.flags.ioValid
  {
    hide CapturePhase, StorePhase, RamOpPhase, ReleaseBus;
    MemoryPhasesKeep(chip, x, m);
    ReleaseKeeps(RamOpPhase(chip, StorePhase(CapturePhase(x, m))));
  }

  lemma DriveKeeps(e: State, op: bv16)
    ensures var d := DriveIO(e, op);
            d.regs == e.regs && d.flags.cond == e.flags.cond && d.flags.ioValid == (e.flags.ioValid || DrivesIO(op))
    ensures var d := DriveIO(e, op);
            d.flags.recall == e.flags.recall && d.flags.ramRead == e.flags.ramRead && d.mem == e.mem && d.kr == e.kr
  {
    hide DrivesIO;
  }

  lemma PhaseKeepsBus(chip: Chip, d: State, op: bv16, m: Mask)
    requires Selects(m)
    ensures AluPhase(chip, d, op, m).flags.ioValid == d.flags.ioValid
  {
    hide PassRegs, ClearsCond, Operand, Selects, Destination, Decode, Get, Put, Loaded, LoadSource, ConstantRow;
  }

  /** The exchange of an exchange target. */
  function Swapped(r: Registers, t: I.Target, m: Mask): Registers {
    match t
    case SwapAB => r.(a := Exchanged(r.a, r.b, m), b := Exchanged(r.b, r.a, m))
    case SwapCD => r.(c := Exchanged(r.c, r.d, m), d := Exchanged(r.d, r.c, m))
    case SwapAE => r.(a := Exchanged(r.a, r.e, m), e := Exchanged(r.e, r.a, m))
    case _ => r
  }

  lemma SwapIs(r: Registers, op: bv16, t: I.Target, m: Mask)
    requires op & 0x0007 == I.TargetCode(t)
    ensures ExchangeRegs(r, op, m) == Swapped(r, t, m)
  {
    hide Exchanged;
  }

  predicate SameOperands(e: State, d: State) {
    d.regs == e.regs && d.flags.cond == e.flags.cond && d.flags.recall == e.flags.recall && d.flags.ramRead == e.flags.ramRead
    && d.mem == e.mem && d.kr == e.kr
  }

  lemma SameSources(chip: Chip, e: State, d: State, f: I.Form, m: Mask)
    requires SameOperands(e, d)
    ensures FirstSource(d, f) == FirstSource(e, f) && SecondSource(chip, d, f, m) == SecondSource(chip, e, f, m)
  {
    hide Masked, ConstantRow;
  }

  /** The pass, then the exchange; the IO bus keeps the result when it is the target, and is clear otherwise. */
  lemma AluDoes(chip: Chip, e: State, op: bv16, target: I.Target, m: Mask)
    requires IsAlu(op) && FieldMask(op) == m && Selects(m) && op & 0x0007 == I.TargetCode(target) && !e.flags.ioValid
    ensures var x, t := AluPhase(chip, DriveIO(e, op), op, m), ExecuteAlu(chip, e, op);
            && t.regs == Swapped(x.regs, target, m).(sout := if target == I.ToIO then x.regs.sout else ZERO_DIGITS)
            && t.flags.cond == x.flags.cond && t.flags.ioValid == (target == I.ToIO)
  {
    hide IsAlu, AluPhase, DriveIO, CapturePhase, StorePhase, RamOpPhase, ReleaseBus, FieldMask, Selects, Destination, DrivesIO, Swapped,
         ExchangeRegs, I.TargetCode;
    var d := DriveIO(e, op);
    DriveKeeps(e, op);
    TargetIs(op, target);
    PhaseKeepsBus(chip, d, op, m);
    var x := AluPhase(chip, d, op, m);
    SwapIs(x.regs, op, target, m);
    SwapKeepsBus(x.regs, target, m);
    LatePhases(chip, ExchangePhase(x, op, m), m);
  }

  lemma SwapKeepsBus(r: Registers, t: I.Target, m: Mask)
    ensures Swapped(r, t, m).sout == r.sout
  {
    hide Exchanged;
  }

  lemma ComputeIs(chip: Chip, e: State, form: I.Form, field: I.Field, target: I.Target)
    ensures var op, i := I.ComputeCode(form, field, target), I.Compute(form, field, target);
            IsAlu(op) && Work(chip, e, i) == ExecuteAlu(chip, e, op)
  {
    hide I.ComputeCode, Work, Execute, ExecuteAlu, IsAlu, IsBranch, High, Index;
    WorkIs(chip, e, I.Compute(form, field, target));
    Decodes(form, field, target);
    AluExecutes(chip, e, I.ComputeCode(form, field, target));
  }

  lemma AluExecutes(chip: Chip, e: State, op: bv16)
    requires !IsBranch(op) && IsAlu(op)
    ensures Execute(chip, e, op) == ExecuteAlu(chip, e, op)
  {
    hide FlagOp, KeyScan, Control, ExecuteAlu, IsBranch, High;
  }

  /** What the registers and COND are after a pass of `op` over `x` and `y` into the target. */
  predicate Computed(e: State, t: State, target: I.Target, op: Op, x: Digits, y: Digits, m: Mask) {
    var r := PassRegs(e.regs, RegisterOf(target), op, x, y, m);
    && t.regs == Swapped(r, target, m).(sout := if target == I.ToIO then r.sout else ZERO_DIGITS)
    && t.flags.cond == (e.flags.cond && !ClearsCond(op, x, Operand(y, m), m)) && t.flags.ioValid == (target == I.ToIO)
  }

  /**
   Every arithmetic instruction but the loads of R5 is one pass over its field: its operation, its
   two sources, its target; exchange targets then exchange.
   */
  lemma ComputeDoes(chip: Chip, e: State, form: I.Form, field: I.Field, target: I.Target)
    requires !form.Nibble? && !e.flags.ioValid
    ensures var m := MaskOf(field);
            Computed(e, Work(chip, e, I.Compute(form, field, target)), target, Operate(form), FirstSource(e, form),
                     SecondSource(chip, e, form, m), m)
  {
    hide I.ComputeCode, I.FieldCode, I.TargetCode, I.FormCode, Work, ExecuteAlu, IsAlu, AluPhase, DriveIO, FieldMask, Selects, Destination,
         Swapped, PassRegs, ClearsCond, Operand, Operate, FirstSource, SecondSource, MaskOf, High, Index, RegisterOf, IsBranch;
    var op, m := I.ComputeCode(form, field, target), MaskOf(field);
    ComputeIs(chip, e, form, field, target);
    Decodes(form, field, target);
    FieldIs(op, field);
    TargetIs(op, target);
    var d := DriveIO(e, op);
    DriveKeeps(e, op);
    SameSources(chip, e, d, form, m);
    PhaseIs(chip, d, op, form, m);
    AluDoes(chip, e, op, target, m);
  }

  /** The loads of R5: the field cleared, the constant and R5 put in, and one pass of it onto itself; without a register target nothing. */
  lemma NibbleDoes(chip: Chip, e: State, minus: bool, field: I.Field, target: I.Target)
    requires !e.flags.ioValid && RegisterOf(target) != NoReg
    ensures var m, dst := MaskOf(field), RegisterOf(target);
            Selects(m) && var loaded := Loaded(Get(e.regs, dst), m, e.regs.r5);
            var t := Work(chip, e, I.Compute(I.Nibble(minus), field, target));
            && t.regs == PassRegs(Put(e.regs, dst, loaded), dst, if minus then Sub else Add, ZERO_DIGITS, loaded, m).(sout := ZERO_DIGITS)
            && t.flags.cond == (e.flags.cond && !ClearsCond(if minus then Sub else Add, ZERO_DIGITS, Operand(loaded, m), m))
  {
    hide I.ComputeCode, I.FieldCode, I.TargetCode, I.FormCode, Work, ExecuteAlu, IsAlu, AluPhase, DriveIO, FieldMask, Selects, Destination,
         PassRegs, ClearsCond, Operand, MaskOf, High, Index, IsBranch, Loaded, Get, Put;
    var form := I.Nibble(minus);
    var op, m := I.ComputeCode(form, field, target), MaskOf(field);
    ComputeIs(chip, e, form, field, target);
    Decodes(form, field, target);
    FieldIs(op, field);
    TargetIs(op, target);
    var d := DriveIO(e, op);
    DriveKeeps(e, op);
    NibbleIs(chip, d, op, form, m);
    AluDoes(chip, e, op, target, m);
  }

  // ---------------------------------------------------------------- numbers

  function First(f: I.Field): nat { I.Bounds(f).0 }

  /** One past the last digit. */
  function End(f: I.Field): nat { I.Bounds(f).1 + 1 }

  /** The number a register holds in a field. */
  function NumberIn(d: Digits, f: I.Field): nat {
    FieldOrdered(f);
    AluArithmetic.Value(d, First(f), End(f))
  }

  /** How many numbers the field can hold. */
  function Size(f: I.Field): (n: nat)
    ensures n > 0
  {
    FieldOrdered(f);
    AluArithmetic.Modulus(First(f), End(f))
  }

  lemma FieldOrdered(f: I.Field)
    ensures First(f) < End(f) <= 16 && First(f) <= I.Bounds(f).2 < End(f)
  {
  }

  /** The digits of the field are decimal, digit 0 hexadecimal. */
  predicate LegalIn(d: Digits, f: I.Field) { AluArithmetic.Legal(d, First(f), End(f)) }

  /** The number of a digit at the constant's place. */
  function AtConstant(f: I.Field, n: Byte): nat {
    FieldOrdered(f);
    NumberIn(AluArithmetic.Single(I.Bounds(f).2, n), f)
  }

  /** Which bits of the constant a source's digit has already. */
  function Shared(y: Digits, f: I.Field): nat {
    FieldOrdered(f);
    And(y[I.Bounds(f).2], I.Bounds(f).3)
  }

  /** The second source and the constant, which is or-ed into it: bits they share count once. */
  function WithConstant(y: Digits, f: I.Field): int {
    var shared := Shared(y, f);
    NumberIn(y, f) + AtConstant(f, I.Bounds(f).3) - (if shared < 0x100 then AtConstant(f, shared) else 0)
  }

  lemma MaskIs(f: I.Field)
    ensures var m := MaskOf(f);
            && Selects(m) && m.start == First(f) && m.end + 1 == End(f) && m.cpos == I.Bounds(f).2 && m.cval == I.Bounds(f).3
            && exists index: nat :: index < 16 && m == MaskInfo(index) && (index == 11 <==> f == I.MantissaFive)
  {
    var index := match f
      case All => 1 case Point => 2 case PointOne => 3 case PointTwelve => 4 case LowestOne => 5 case Exponent => 6 case ExponentOne => 7
      case Mantissa => 9 case MantissaFive => 11 case Number15 => 12 case Number15Lowest => 13 case Number15Highest => 14 case Number15One => 15;
    assert MaskOf(f) == MaskInfo(index);
  }

  /** What the sum or difference comes to. */
  function Total(minus: bool, x: Digits, y: Digits, f: I.Field): int {
    if minus then NumberIn(x, f) - WithConstant(y, f) else NumberIn(x, f) + WithConstant(y, f)
  }

  lemma OperandNumber(y: Digits, f: I.Field)
    ensures NumberIn(Operand(y, MaskOf(f)), f) == WithConstant(y, f)
  {
    MaskIs(f);
    FieldOrdered(f);
    AluArithmetic.OperandValue(y, MaskOf(f));
    hide And, Operand, MaskOf, AluArithmetic.Value, AluArithmetic.Single, Selects;
  }

  lemma OperandIsLegal(y: Digits, f: I.Field)
    requires LegalIn(y, f) && (f == I.MantissaFive ==> y[3] < 8)
    ensures LegalIn(Operand(y, MaskOf(f)), f)
  {
    MaskIs(f);
    var index: nat :| index < 16 && MaskOf(f) == MaskInfo(index) && (index == 11 <==> f == I.MantissaFive);
    AluArithmetic.OperandLegal(y, index);
    hide Operand, MaskOf, Selects, MaskInfo;
  }

  /** The number a pass leaves in the field, the rest of the register, and when COND is cleared. */
  predicate Left(dst: Digits, r: Digits, clears: bool, total: int, f: I.Field) {
    && NumberIn(r, f) == total % Size(f) && LegalIn(r, f)
    && (forall i :: 0 <= i < 16 && !(First(f) <= i < End(f)) ==> r[i] == dst[i])
    && (clears <==> !(0 <= total < Size(f)))
  }

  /** The same of a whole instruction and its target. */
  predicate Holds(e: State, t: State, target: I.Target, total: int, f: I.Field) {
    var was, now := Get(e.regs, RegisterOf(target)), Get(t.regs, RegisterOf(target));
    && NumberIn(now, f) == total % Size(f) && LegalIn(now, f)
    && (forall i :: 0 <= i < 16 && !(First(f) <= i < End(f)) ==> now[i] == was[i])
    && t.flags.cond == (e.flags.cond && 0 <= total < Size(f))
  }

  /** A pass of ADD or SUB: the total modulo the field's size, COND cleared when the total is outside it. */
  lemma PassNumber(dst: Digits, minus: bool, x: Digits, y: Digits, f: I.Field)
    requires LegalIn(x, f) && LegalIn(y, f) && (f == I.MantissaFive ==> y[3] < 8)
    ensures var m, op := MaskOf(f), if minus then Sub else Add;
            Left(dst, Result(dst, op, x, Operand(y, m), m), ClearsCond(op, x, Operand(y, m), m), Total(minus, x, y, f), f)
  {
    hide Operand, MaskOf, Result, ClearsCond, WithConstant, NumberIn, LegalIn, Left;
    OperandNumber(y, f);
    OperandIsLegal(y, f);
    if minus {
      Subtracted(dst, x, Operand(y, MaskOf(f)), f);
    } else {
      Added(dst, x, Operand(y, MaskOf(f)), f);
    }
  }

  lemma Added(dst: Digits, x: Digits, z: Digits, f: I.Field)
    requires LegalIn(x, f) && LegalIn(z, f)
    ensures var m := MaskOf(f);
            Left(dst, Result(dst, Add, x, z, m), ClearsCond(Add, x, z, m), NumberIn(x, f) + NumberIn(z, f), f)
  {
    hide MaskOf, Selects, Result, ClearsCond, AluArithmetic.Value, AluArithmetic.Modulus;
    MaskIs(f);
    FieldOrdered(f);
    AluArithmetic.AddIsModular(dst, x, z, MaskOf(f));
  }

  lemma Subtracted(dst: Digits, x: Digits, z: Digits, f: I.Field)
    requires LegalIn(x, f) && LegalIn(z, f)
    ensures var m := MaskOf(f);
            Left(dst, Result(dst, Sub, x, z, m), ClearsCond(Sub, x, z, m), NumberIn(x, f) - NumberIn(z, f), f)
  {
    hide MaskOf, Selects, Result, ClearsCond, AluArithmetic.Value, AluArithmetic.Modulus;
    MaskIs(f);
    FieldOrdered(f);
    AluArithmetic.SubIsModular(dst, x, z, MaskOf(f));
    SubBelow(x, z, f);
  }

  lemma SubBelow(x: Digits, z: Digits, f: I.Field)
    requires LegalIn(x, f)
    ensures NumberIn(x, f) - NumberIn(z, f) < Size(f)
  {
    FieldOrdered(f);
    AluArithmetic.ValueBelowModulus(x, First(f), End(f));
    hide AluArithmetic.Value, AluArithmetic.Modulus;
  }

  /** The forms that add or subtract. */
  predicate Adds(f: I.Form) { f.OneX? || f.OneY? || f.Both? || f.Row? || f.Nothing? }

  predicate Minus(f: I.Form)
    requires Adds(f)
  {
    f.minus
  }

  /** The sources of an adding or subtracting instruction are legal in its field. */
  predicate LegalSources(chip: Chip, e: State, form: I.Form, field: I.Field) {
    var y := SecondSource(chip, e, form, MaskOf(field));
    LegalIn(FirstSource(e, form), field) && LegalIn(y, field) && (field == I.MantissaFive ==> y[3] < 8)
  }

  function TotalOf(chip: Chip, e: State, form: I.Form, field: I.Field): int
    requires Adds(form)
  {
    Total(Minus(form), FirstSource(e, form), SecondSource(chip, e, form, MaskOf(field)), field)
  }

  /**
   Every adding or subtracting instruction of the set, on legal digits: the target's field holds
   X + Y + K or X - Y - K modulo the field's size, K the field's constant less the bits Y has
   already; its digits are legal, the rest of the register stands, and COND is cleared exactly when
   the total is outside the field. No other register changes.
   */
  lemma SumsDo(chip: Chip, e: State, form: I.Form, field: I.Field, target: I.Target)
    requires Adds(form) && !e.flags.ioValid && RegisterOf(target) != NoReg && LegalSources(chip, e, form, field)
    ensures var t := Work(chip, e, I.Compute(form, field, target));
            Holds(e, t, target, TotalOf(chip, e, form, field), field) && OthersStand(e.regs, t.regs, target)
  {
    assert !form.Nibble?;
    hide *;
    ComputeDoes(chip, e, form, field, target);
    SumPass(chip, e, Work(chip, e, I.Compute(form, field, target)), form, field, target);
  }

  lemma SumPass(chip: Chip, e: State, t: State, form: I.Form, field: I.Field, target: I.Target)
    requires Adds(form) && RegisterOf(target) != NoReg && LegalSources(chip, e, form, field)
    requires Computed(e, t, target, Operate(form), FirstSource(e, form), SecondSource(chip, e, form, MaskOf(field)), MaskOf(field))
    ensures Holds(e, t, target, TotalOf(chip, e, form, field), field) && OthersStand(e.regs, t.regs, target)
  {
    var x, y, m := FirstSource(e, form), SecondSource(chip, e, form, MaskOf(field)), MaskOf(field);
    hide *;
    var op := if Minus(form) then Sub else Add;
    SumFacts(chip, e, form, field);
    PassComputed(e, t, target, op, x, y, m);
    PassNumber(Get(e.regs, RegisterOf(target)), Minus(form), x, y, field);
    LeftHolds(e, t, target, Get(e.regs, RegisterOf(target)), Get(t.regs, RegisterOf(target)), ClearsCond(op, x, Operand(y, m), m),
              TotalOf(chip, e, form, field), field);
  }

  lemma SumFacts(chip: Chip, e: State, form: I.Form, field: I.Field)
    requires Adds(form) && LegalSources(chip, e, form, field)
    ensures var x, y := FirstSource(e, form), SecondSource(chip, e, form, MaskOf(field));
            && LegalIn(x, field) && LegalIn(y, field) && (field == I.MantissaFive ==> y[3] < 8)
            && TotalOf(chip, e, form, field) == Total(Minus(form), x, y, field) && Operate(form) == if Minus(form) then Sub else Add
  {
    hide FirstSource, SecondSource, LegalIn, MaskOf, Total;
  }

  lemma PassComputed(e: State, t: State, target: I.Target, op: Op, x: Digits, y: Digits, m: Mask)
    requires Computed(e, t, target, op, x, y, m) && RegisterOf(target) != NoReg
    ensures Get(t.regs, RegisterOf(target)) == Result(Get(e.regs, RegisterOf(target)), op, x, Operand(y, m), m)
    ensures t.flags.cond == (e.flags.cond && !ClearsCond(op, x, Operand(y, m), m)) && OthersStand(e.regs, t.regs, target)
  {
    hide PassRegs, Swapped, Result, Operand, ClearsCond, Get, OthersStand;
    Delivered(e.regs, t.regs, target, op, x, y, m);
  }

  lemma LeftHolds(e: State, t: State, target: I.Target, was: Digits, now: Digits, clears: bool, total: int, f: I.Field)
    requires Left(was, now, clears, total, f) && was == Get(e.regs, RegisterOf(target)) && now == Get(t.regs, RegisterOf(target))
    requires t.flags.cond == (e.flags.cond && !clears)
    ensures Holds(e, t, target, total, f)
  {
    hide NumberIn, LegalIn, Get, RegisterOf, Size, First, End;
  }

  /** The working registers that are not the target are as they were. */
  predicate OthersStand(r: Registers, q: Registers, t: I.Target) {
    (t == I.ToA || q.a == r.a) && (t == I.ToB || q.b == r.b) && (t == I.ToC || q.c == r.c) && (t == I.ToD || q.d == r.d) && q.e == r.e
  }

  lemma Delivered(r: Registers, q: Registers, target: I.Target, op: Op, x: Digits, y: Digits, m: Mask)
    requires RegisterOf(target) != NoReg
    requires q == Swapped(PassRegs(r, RegisterOf(target), op, x, y, m), target, m).(sout := q.sout)
    ensures Get(q, RegisterOf(target)) == Result(Get(r, RegisterOf(target)), op, x, Operand(y, m), m) && OthersStand(r, q, target)
  {
    hide Result, Operand, Bus, NewR5, Exchanged;
  }

  // ---------------------------------------------------------------- shifts and R5

  predicate Shifts(f: I.Form) { f.ShiftX? || f.ShiftY? }

  predicate Right(f: I.Form)
    requires Shifts(f)
  {
    f.right
  }

  /** The register shifted. */
  function ShiftedSource(e: State, f: I.Form): Digits
    requires Shifts(f)
  {
    if f.ShiftX? then FirstOf(e.regs, f.x) else SecondOf(e.regs, f.y)
  }

  /**
   Every shift of the set, in a decimal field without a constant: the target's field holds ten
   times the source's number modulo the field's size, or a tenth of it rounded down; COND stands.
   */
  lemma ShiftsDo(chip: Chip, e: State, form: I.Form, field: I.Field, target: I.Target)
    requires Shifts(form) && !e.flags.ioValid && RegisterOf(target) != NoReg && First(field) >= 1 && I.Bounds(field).3 == 0
    requires LegalIn(ShiftedSource(e, form), field)
    ensures var t := Work(chip, e, I.Compute(form, field, target));
            var was, now := Get(e.regs, RegisterOf(target)), Get(t.regs, RegisterOf(target));
            var n := NumberIn(ShiftedSource(e, form), field);
            && NumberIn(now, field) == (if Right(form) then n / 10 else 10 * n % Size(field)) && LegalIn(now, field)
            && (forall i :: 0 <= i < 16 && !(First(field) <= i < End(field)) ==> now[i] == was[i])
            && t.flags.cond == e.flags.cond && OthersStand(e.regs, t.regs, target)
  {
    hide *;
    var x, y, m := FirstSource(e, form), SecondSource(chip, e, form, MaskOf(field)), MaskOf(field);
    var t := Work(chip, e, I.Compute(form, field, target));
    var op := if Right(form) then Shr else Shl;
    ShiftFacts(chip, e, form, field);
    ComputeDoes(chip, e, form, field, target);
    PassComputed(e, t, target, op, x, y, m);
    ShiftPass(Get(e.regs, RegisterOf(target)), Right(form), x, y, ShiftedSource(e, form), field);
  }

  lemma ShiftFacts(chip: Chip, e: State, form: I.Form, field: I.Field)
    requires Shifts(form)
    ensures var x, y, s := FirstSource(e, form), SecondSource(chip, e, form, MaskOf(field)), ShiftedSource(e, form);
            && ((x == s && y == ZERO_DIGITS) || (x == ZERO_DIGITS && y == s))
            && Operate(form) == (if Right(form) then Shr else Shl) && !form.Nibble?
  {
    hide MaskOf, Masked;
  }

  lemma ShiftPass(dst: Digits, right: bool, x: Digits, y: Digits, s: Digits, f: I.Field)
    requires First(f) >= 1 && I.Bounds(f).3 == 0 && LegalIn(s, f)
    requires (x == s && y == ZERO_DIGITS) || (x == ZERO_DIGITS && y == s)
    ensures var m, op := MaskOf(f), if right then Shr else Shl;
            var r := Result(dst, op, x, Operand(y, m), m);
            && NumberIn(r, f) == (if right then NumberIn(s, f) / 10 else 10 * NumberIn(s, f) % Size(f)) && LegalIn(r, f)
            && (forall i :: 0 <= i < 16 && !(First(f) <= i < End(f)) ==> r[i] == dst[i]) && !ClearsCond(op, x, Operand(y, m), m)
  {
    var m := MaskOf(f);
    MaskIs(f);
    FieldOrdered(f);
    assert Operand(y, m) == y by {
      NoConstant(y, m);
    }
    hide MaskOf, Selects, Operand, Result, ClearsCond, AluArithmetic.Value, AluArithmetic.Modulus;
    if right {
      AluArithmetic.ShrByTen(dst, x, y, s, m);
    } else {
      AluArithmetic.ShlTimesTen(dst, x, y, s, m);
    }
  }

  lemma NoConstant(y: Digits, m: Mask)
    requires Selects(m) && m.cval == 0
    ensures Operand(y, m) == y
  {
    assert y[m.cpos := y[m.cpos]] == y;
  }

  /**
   The loads of R5, for every nibble in it: the target's field holds R5 and the field's constant,
   or minus them, as a number modulo the field's size; no other register changes.
   */
  lemma LoadsDo(chip: Chip, e: State, minus: bool, field: I.Field, target: I.Target)
    requires !e.flags.ioValid && RegisterOf(target) != NoReg && e.regs.r5 < 16
    requires minus ==> FirstLoaded(field, e.regs.r5) <= AluArithmetic.Modulus(First(field), First(field) + 1)
    ensures var t := Work(chip, e, I.Compute(I.Nibble(minus), field, target));
            var was, now := Get(e.regs, RegisterOf(target)), Get(t.regs, RegisterOf(target));
            && NumberIn(now, field) == (if minus then -R5Number(field, e.regs.r5) else R5Number(field, e.regs.r5)) % Size(field)
            && LegalIn(now, field) && OthersStand(e.regs, t.regs, target)
            && (forall i :: 0 <= i < 16 && !(First(field) <= i < End(field)) ==> now[i] == was[i])
  {
    hide Work, MaskOf, NumberIn, LegalIn, Size, Get, Put, PassRegs, Loaded, ClearsCond, Operand, RegisterOf, OthersStand, First, End, R5Number,
         FirstLoaded, Selects, AluArithmetic.Modulus, Result;
    NibbleDoes(chip, e, minus, field, target);
    var m, dst := MaskOf(field), RegisterOf(target);
    var loaded := Loaded(Get(e.regs, dst), m, e.regs.r5);
    LoadPass(Get(e.regs, dst), minus, e.regs.r5, field);
    LoadDelivered(e.regs, Work(chip, e, I.Compute(I.Nibble(minus), field, target)).regs, target, if minus then Sub else Add, loaded, m);
  }

  /** The digit that goes first: R5, with the constant or-ed in when it goes there too. */
  function FirstLoaded(f: I.Field, r5: Byte): nat {
    if I.Bounds(f).2 == First(f) then Or(r5, I.Bounds(f).3) else r5
  }

  /** The number R5 and the constant make in the field. */
  function R5Number(f: I.Field, r5: Byte): int {
    FirstLoaded(f, r5) + (if I.Bounds(f).2 == First(f) then 0 else AtConstant(f, I.Bounds(f).3))
  }

  /** The loaded field, as a pass leaves it. */
  predicate LoadLeft(was: Digits, r: Digits, n: int, f: I.Field) {
    && NumberIn(r, f) == n % Size(f) && LegalIn(r, f)
    && forall i :: 0 <= i < 16 && !(First(f) <= i < End(f)) ==> r[i] == was[i]
  }

  lemma LoadPass(was: Digits, minus: bool, r5: Byte, f: I.Field)
    requires r5 < 16 && (minus ==> FirstLoaded(f, r5) <= AluArithmetic.Modulus(First(f), First(f) + 1))
    ensures var m := MaskOf(f);
            Selects(m) && var y := Loaded(was, m, r5);
            LoadLeft(was, Result(y, if minus then Sub else Add, ZERO_DIGITS, Operand(y, m), m), if minus then -R5Number(f, r5) else R5Number(f, r5), f)
  {
    hide MaskOf, Selects, Operand, Result, Loaded, AluArithmetic.Modulus, R5Number, FirstLoaded, LoadLeft;
    if minus {
      LoadSubtracts(was, r5, f);
    } else {
      LoadAdds(was, r5, f);
    }
  }

  lemma LoadAdds(was: Digits, r5: Byte, f: I.Field)
    requires r5 < 16
    ensures var m := MaskOf(f);
            Selects(m) && var y := Loaded(was, m, r5);
            LoadLeft(was, Result(y, Add, ZERO_DIGITS, Operand(y, m), m), R5Number(f, r5), f)
  {
    hide MaskOf, Selects, Operand, ClearsCond, Result, Loaded, AluArithmetic.Value, AluArithmetic.Modulus, AluArithmetic.LoadedNumber, R5Number;
    MaskIs(f);
    FieldOrdered(f);
    LoadedIs(f, r5);
    AluArithmetic.NibbleLoad(was, MaskOf(f), r5);
    OutsideStands(was, MaskOf(f), r5, Add);
  }

  lemma LoadSubtracts(was: Digits, r5: Byte, f: I.Field)
    requires r5 < 16 && FirstLoaded(f, r5) <= AluArithmetic.Modulus(First(f), First(f) + 1)
    ensures var m := MaskOf(f);
            Selects(m) && var y := Loaded(was, m, r5);
            LoadLeft(was, Result(y, Sub, ZERO_DIGITS, Operand(y, m), m), -R5Number(f, r5), f)
  {
    hide MaskOf, Selects, Operand, ClearsCond, Result, Loaded, AluArithmetic.Value, AluArithmetic.Modulus, AluArithmetic.LoadedNumber,
         AluArithmetic.LoadedLow, R5Number, FirstLoaded;
    MaskIs(f);
    FieldOrdered(f);
    LoadedIs(f, r5);
    OneDigitField(First(f));
    AluArithmetic.NibbleLoadNegated(was, MaskOf(f), r5);
    OutsideStands(was, MaskOf(f), r5, Sub);
  }

  lemma OneDigitField(k: nat)
    ensures AluArithmetic.Modulus(k, k + 1) == Base(k)
  {
    assert AluArithmetic.Modulus(k + 1, k + 1) == 1;
  }

  lemma OutsideStands(was: Digits, m: Mask, r5: Byte, op: Op)
    requires Selects(m)
    ensures var y := Loaded(was, m, r5);
            forall i :: 0 <= i < 16 && !InField(m, i) ==> Result(y, op, ZERO_DIGITS, Operand(y, m), m)[i] == was[i]
  {
    hide Operand, ResultDigit;
  }

  lemma LoadedIs(f: I.Field, r5: Byte)
    requires r5 < 16
    ensures AluArithmetic.LoadedLow(MaskOf(f), r5) == FirstLoaded(f, r5)
    ensures Selects(MaskOf(f)) && AluArithmetic.LoadedNumber(MaskOf(f), r5) == R5Number(f, r5)
    ensures I.Bounds(f).2 != First(f) ==> I.Bounds(f).3 < 10
  {
    MaskIs(f);
    FieldOrdered(f);
    AluArithmetic.OrTwice(r5, I.Bounds(f).3);
    hide Or, AluArithmetic.Value, Selects;
  }

  lemma LoadDelivered(r: Registers, q: Registers, target: I.Target, op: Op, loaded: Digits, m: Mask)
    requires RegisterOf(target) != NoReg
    requires q == PassRegs(Put(r, RegisterOf(target), loaded), RegisterOf(target), op, ZERO_DIGITS, loaded, m).(sout := ZERO_DIGITS)
    ensures Get(q, RegisterOf(target)) == Result(loaded, op, ZERO_DIGITS, Operand(loaded, m), m) && OthersStand(r, q, target)
  {
    hide Result, Operand, Bus, NewR5;
  }
}
