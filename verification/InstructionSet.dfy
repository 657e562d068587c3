/**
 The instruction set, named and encoded: thirteen bits, branches with bit 12 set, the others with
 their class in bits 8 to 11. What the words do is proved of the CPU in the modules that follow.
 */
module InstructionSet {
  import opened Words
  import opened Bits

  /** How far a branch goes. */
  type Distance = d: bv16 | d < 1024

  /** Which of the seven lines of a keyboard row a scan asks for. */
  type Lines = m: bv16 | m < 128

  datatype FlagReg = FA | FB

  // ---------------------------------------------------------------- arithmetic

  /** The registers that can be a first source, and those that can be a second one. */
  datatype First = FirstA | FirstC

  datatype Second = SecondB | SecondD

  /**
   What an arithmetic instruction computes. A mask's constant K counts as a second source or goes
   with it: X + K, X - K, Y + K, -(Y + K), X + Y + K, X - Y - K. `Row` is the constant-ROM row KR
   names.
   */
  datatype Form =
    | OneX(x: First, minus: bool) | OneY(y: Second, minus: bool)
    | ShiftX(x: First, right: bool) | ShiftY(y: Second, right: bool)
    | Both(x: First, y: Second, minus: bool)
    | Row(x: First, minus: bool) | Nothing(minus: bool) | Nibble(minus: bool)

  datatype Target = ToA | ToIO | SwapAB | ToB | ToC | SwapCD | ToD | SwapAE

  /** The fields of a register, some with a constant. */
  datatype Field =
    | All | Point | PointOne | PointTwelve | LowestOne | Exponent | ExponentOne | Mantissa | MantissaFive
    | Number15 | Number15Lowest | Number15Highest | Number15One

  /** First and last digit of a field, where its constant goes, and the constant. */
  function Bounds(f: Field): (nat, nat, nat, nat) {
    match f
    case All => (0, 15, 0, 0)
    case Point => (0, 0, 0, 0)
    case PointOne => (0, 0, 0, 1)
    case PointTwelve => (0, 0, 0, 12)
    case LowestOne => (3, 3, 3, 1)
    case Exponent => (1, 2, 1, 0)
    case ExponentOne => (1, 2, 1, 1)
    case Mantissa => (3, 15, 3, 0)
    case MantissaFive => (3, 15, 3, 5)
    case Number15 => (1, 15, 1, 0)
    case Number15Lowest => (1, 15, 3, 1)
    case Number15Highest => (1, 15, 15, 1)
    case Number15One => (1, 15, 1, 1)
  }

  function FieldCode(f: Field): bv16 {
    match f
    case All => 0x0100
    case Point => 0x0200
    case PointOne => 0x0300
    case PointTwelve => 0x0400
    case LowestOne => 0x0500
    case Exponent => 0x0600
    case ExponentOne => 0x0700
    case Mantissa => 0x0900
    case MantissaFive => 0x0B00
    case Number15 => 0x0C00
    case Number15Lowest => 0x0D00
    case Number15Highest => 0x0E00
    case Number15One => 0x0F00
  }

  function FormCode(f: Form): bv16 {
    match f
    case OneX(x, minus) => (if x == FirstA then 0x00 else 0x20) | (if minus then 0x08 else 0)
    case OneY(y, minus) => (if y == SecondB then 0x10 else 0x30) | (if minus then 0x08 else 0)
    case ShiftX(x, right) => (if x == FirstA then 0x40 else 0x60) | (if right then 0x08 else 0)
    case ShiftY(y, right) => (if y == SecondB then 0x50 else 0x70) | (if right then 0x08 else 0)
    case Both(x, y, minus) =>
      (if x == FirstA then (if y == SecondB then 0x80 else 0xB0) else if y == SecondB then 0x90 else 0xA0)
      | (if minus then 0x08 else 0)
    case Row(x, minus) => (if x == FirstA then 0xC0 else 0xE0) | (if minus then 0x08 else 0)
    case Nothing(minus) => 0xD0 | (if minus then 0x08 else 0)
    case Nibble(minus) => 0xF0 | (if minus then 0x08 else 0)
  }

  function TargetCode(t: Target): bv16 {
    match t
    case ToA => 0
    case ToIO => 1
    case SwapAB => 2
    case ToB => 3
    case ToC => 4
    case SwapCD => 5
    case ToD => 6
    case SwapAE => 7
  }

  // ---------------------------------------------------------------- all instructions

  /** Single bits of fA, fB and KR, and bits 1 to 4 of a flag register. */
  datatype BitOp =
    | TestFlag(flags: FlagReg, bit: Position) | SetFlag(flags: FlagReg, bit: Position) | ClearFlag(flags: FlagReg, bit: Position)
    | InvertFlag(flags: FlagReg, bit: Position) | SwapFlags(bit: Position) | CopyFlag(dest: FlagReg, bit: Position)
    | CompareFlags(bit: Position) | FlagsFromR5(flags: FlagReg) | SetKeyBit(bit: Position) | ClearKeyBit(bit: Position)

  datatype PlainOp =
    | WaitDigit(digit: Position) | ClearIdle | SetIdle | ClearFlags(flags: FlagReg) | IncKey | TestKeyBit(bit: Position)
    | FlagsToR5(flags: FlagReg) | LoadR5(digit: Position)

  /** KR, card, printer and RAM operations. */
  datatype PeripheralOp =
    | KeyToR5 | R5ToKey | InCard | OutCard | CardOff | CardRead | CardWrite
    | OutPrint | OutMnemonic | PrintClear | PrintStep | PrintLine | PrintFeed | RamOp

  datatype LatchOp = MemWrite | MemRead | TestBusy | ExtToKey | SwapKey | Store | Recall

  datatype LibraryOp = InLib | OutLibPC | InLibPC | InLibHigh

  datatype Instruction =
    | Jump(wanted: bool, distance: Distance, backward: bool)
    | Compute(form: Form, field: Field, target: Target)
    | Scan(all: bool, lines: Lines)
    | Bit(bits: BitOp) | Plain(plain: PlainOp) | Outside(peripheral: PeripheralOp) | Latch(latch: LatchOp) | Module(library: LibraryOp)

  function FlagCode(sel: bv16, bit: Position): bv16 { (bit << 4) | sel }

  function ControlCode(sel: bv16, arg: Position): bv16 { 0x0A00 | (arg << 4) | sel }

  function JumpCode(wanted: bool, distance: Distance, backward: bool): bv16 {
    0x1000 | (if wanted then 0x0800 else 0) | (distance << 1) | (if backward then 1 else 0)
  }

  /** The lines asked for are the zeros, three of them in bits 0 to 2, four in bits 4 to 7. */
  function ScanCode(all: bool, lines: Lines): bv16 {
    var zeros := lines ^ 0x7F;
    0x0800 | (if all then 0 else 0x08) | (zeros & 0x07) | ((zeros & 0x78) << 1)
  }

  function ComputeCode(form: Form, field: Field, target: Target): bv16 {
    FieldCode(field) | FormCode(form) | TargetCode(target)
  }

  function BitCode(i: BitOp): bv16 {
    match i
    case TestFlag(f, b) => FlagCode(if f == FA then 0x0 else 0x8, b)
    case SetFlag(f, b) => FlagCode(if f == FA then 0x1 else 0x9, b)
    case ClearFlag(f, b) => FlagCode(if f == FA then 0x2 else 0xA, b)
    case InvertFlag(f, b) => FlagCode(if f == FA then 0x3 else 0xB, b)
    case SwapFlags(b) => FlagCode(0x4, b)
    case CopyFlag(f, b) => FlagCode(if f == FA then 0x6 else 0xE, b)
    case CompareFlags(b) => FlagCode(0xC, b)
    case FlagsFromR5(f) => FlagCode(if f == FA then 0x7 else 0xF, 0)
    case SetKeyBit(b) => FlagCode(0x5, b)
    case ClearKeyBit(b) => FlagCode(0xD, b)
  }

  function PlainCode(i: PlainOp): bv16 {
    match i
    case WaitDigit(d) => ControlCode(0x0, d)
    case ClearIdle => ControlCode(0x1, 0)
    case SetIdle => ControlCode(0x9, 0)
    case ClearFlags(f) => ControlCode(if f == FA then 0x2 else 0xA, 0)
    case IncKey => ControlCode(0x4, 0)
    case TestKeyBit(b) => ControlCode(0x5, b)
    case FlagsToR5(f) => ControlCode(0x6, if f == FA then 0 else 1)
    case LoadR5(d) => ControlCode(0x7, d)
  }

  function PeripheralCode(i: PeripheralOp): bv16 {
    match i
    case KeyToR5 => ControlCode(0x8, 0x0)
    case R5ToKey => ControlCode(0x8, 0x1)
    case InCard => ControlCode(0x8, 0x2)
    case OutCard => ControlCode(0x8, 0x3)
    case CardOff => ControlCode(0x8, 0x4)
    case CardRead => ControlCode(0x8, 0x5)
    case CardWrite => ControlCode(0x8, 0xC)
    case OutPrint => ControlCode(0x8, 0x6)
    case OutMnemonic => ControlCode(0x8, 0x7)
    case PrintClear => ControlCode(0x8, 0x8)
    case PrintStep => ControlCode(0x8, 0x9)
    case PrintLine => ControlCode(0x8, 0xA)
    case PrintFeed => ControlCode(0x8, 0xB)
    case RamOp => ControlCode(0x8, 0xF)
  }

  function LatchCode(i: LatchOp): bv16 {
    match i
    case MemWrite => ControlCode(0x6, 7)
    case MemRead => ControlCode(0x6, 8)
    case TestBusy => ControlCode(0xB, 0)
    case ExtToKey => ControlCode(0xC, 0)
    case SwapKey => ControlCode(0xD, 0)
    case Store => ControlCode(0xF, 0)
    case Recall => ControlCode(0xF, 1)
  }

  function LibraryCode(i: LibraryOp): bv16 {
    match i
    case InLib => ControlCode(0xE, 0)
    case OutLibPC => ControlCode(0xE, 1)
    case InLibPC => ControlCode(0xE, 2)
    case InLibHigh => ControlCode(0xE, 3)
  }

  /** The opcode of an instruction. */
  function Opcode(i: Instruction): bv16 {
    match i
    case Jump(wanted, distance, backward) => JumpCode(wanted, distance, backward)
    case Compute(form, field, target) => ComputeCode(form, field, target)
    case Scan(all, lines) => ScanCode(all, lines)
    case Bit(op) => BitCode(op)
    case Plain(op) => PlainCode(op)
    case Outside(op) => PeripheralCode(op)
    case Latch(op) => LatchCode(op)
    case Module(op) => LibraryCode(op)
  }
}
