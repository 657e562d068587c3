/**
 The TMC0501 CPU as a state machine over values: what one instruction does to the
 registers, the flags, SCOM, the user RAM, the library pointer, the card reader and
 the printer.
 */
module Core {
  import opened Words
  import opened Alu

  type ScomRows = s: seq<Digits> | |s| == 16 witness seq<Digits>(16, _ => ZERO_DIGITS)
  type RamRows = s: seq<Digits> | |s| == 120 witness seq<Digits>(120, _ => ZERO_DIGITS)
  type RamSize = x: int | 0 < x <= 120 witness 120
  type KeyMatrix = s: seq<bv8> | |s| == 16 witness seq(16, _ => 0)
  type BankImage = s: seq<bv8> | |s| == BANK_BYTES witness seq(BANK_BYTES, _ => 0)
  type FullCard = s: seq<bv8> | |s| == 4 * BANK_BYTES witness seq(4 * BANK_BYTES, _ => 0)
  type CardIndex = x: int | 0 <= x <= BANK_BYTES
  type GlyphBuffer = s: seq<string> | |s| == 20 witness seq(20, _ => " ")
  type CodeBuffer = s: seq<bv8> | |s| == 20 witness seq(20, _ => 0)

  const BANK_BYTES := 246
  const PRINTER_LINE_CYCLES := 4165
  const PRINTER_FEED_CYCLES := 1370
  const CARD_SWITCH: bv8 := 0x10

  datatype Variant = TI59 | TI58 | TI58C

  /** What does not change during a run: ROM contents, tables, the model's wiring. */
  datatype Chip = Chip(
    rom: bv16 -> bv16,
    constants: bv16 -> Digits,
    library: nat -> bv8,
    glyph: bv8 -> string,
    mnemonic: bv8 -> string,
    variant: Variant,
    cardSwitchCol: Nibble,
    ramSize: RamSize)

  datatype Flags = Flags(
    idle: bool, hold: bool, jump: bool,
    recall: bool, store: bool, ramOp: bool, ramRead: bool, ramWrite: bool,
    extValid: bool, ioValid: bool, cond: bool, busy: bool)

  datatype Registers = Registers(a: Digits, b: Digits, c: Digits, d: Digits, e: Digits, sout: Digits, r5: Byte)

  datatype Memory = Memory(scom: ScomRows, ram: RamRows, regAddr: Nibble, ramAddr: Byte, ramOp: Nibble, ramMask: Mask)

  datatype Library = Library(addr: nat, readPos: nat, wasWriting: bool, execPC: Option<nat>)

  datatype CardMode = NoPass | Reading | Writing

  datatype Card = Card(
    present: bool, waiting: bool, full: FullCard, bank: BankImage, ptr: CardIndex, mode: CardMode, written: Option<nat>)

  datatype CodeLine = CodeLine(codes: seq<bv8>, rowCount: nat, partialColumns: nat, partialHeat: nat)

  datatype Printer = Printer(
    buf: GlyphBuffer, codes: CodeBuffer, ptr: nat, ready: bool, busyCycles: nat, pending: Option<seq<bv8>>,
    lines: seq<seq<string>>, codeLines: seq<CodeLine>)

  datatype State = State(
    regs: Registers, kr: bv16, sr: bv16, fa: bv16, fb: bv16, ext: bv16, preg: bv16, flags: Flags, digit: Nibble,
    addr: bv16, mem: Memory, lib: Library, card: Card, prn: Printer, key: KeyMatrix, polled: bool)

  // ---------------------------------------------------------------- fields

  function High(opcode: bv16): bv16 { opcode & 0x0F00 }

  function Argument(opcode: bv16): bv16 { (opcode >> 4) & 0x000F }

  function FieldMask(opcode: bv16): Mask {
    var f := High(opcode);
    if f == 0x0100 then MaskInfo(1) else if f == 0x0200 then MaskInfo(2) else if f == 0x0300 then MaskInfo(3)
    else if f == 0x0400 then MaskInfo(4) else if f == 0x0500 then MaskInfo(5) else if f == 0x0600 then MaskInfo(6)
    else if f == 0x0700 then MaskInfo(7) else if f == 0x0900 then MaskInfo(9) else if f == 0x0B00 then MaskInfo(11)
    else if f == 0x0C00 then MaskInfo(12) else if f == 0x0D00 then MaskInfo(13) else if f == 0x0E00 then MaskInfo(14)
    else if f == 0x0F00 then MaskInfo(15) else INVALID_MASK
  }

  predicate IsBranch(opcode: bv16) { opcode & 0x1000 != 0 }

  predicate IsAlu(opcode: bv16) {
    !IsBranch(opcode) && High(opcode) != 0x0000 && High(opcode) != 0x0800 && High(opcode) != 0x0A00
  }

  // ---------------------------------------------------------------- ALU class

  datatype RegName = RegA | RegB | RegC | RegD | NoReg

  function Get(r: Registers, name: RegName): Digits {
    match name
    case RegA => r.a
    case RegB => r.b
    case RegC => r.c
    case RegD => r.d
    case NoReg => ZERO_DIGITS
  }

  function Put(r: Registers, name: RegName, value: Digits): Registers {
    match name
    case RegA => r.(a := value)
    case RegB => r.(b := value)
    case RegC => r.(c := value)
    case RegD => r.(d := value)
    case NoReg => r
  }

  function Destination(opcode: bv16): RegName {
    var d := opcode & 0x0007;
    if d == 0 then RegA else if d == 3 then RegB else if d == 4 then RegC else if d == 6 then RegD else NoReg
  }

  predicate DrivesIO(opcode: bv16) { opcode & 0x0007 == 1 }

  datatype Operation = Operation(x: RegName, y: RegName, op: Op)

  /** The register pair and operation of ALU indices 0 to 23 (opcode bits 7:3). */
  function Decode(opcode: bv16): Operation {
    var i := opcode & 0x00F8;
    if i == 0x00 then Operation(RegA, NoReg, Add) else if i == 0x08 then Operation(RegA, NoReg, Sub)
    else if i == 0x10 then Operation(NoReg, RegB, Add) else if i == 0x18 then Operation(NoReg, RegB, Sub)
    else if i == 0x20 then Operation(RegC, NoReg, Add) else if i == 0x28 then Operation(RegC, NoReg, Sub)
    else if i == 0x30 then Operation(NoReg, RegD, Add) else if i == 0x38 then Operation(NoReg, RegD, Sub)
    else if i == 0x40 then Operation(RegA, NoReg, Shl) else if i == 0x48 then Operation(RegA, NoReg, Shr)
    else if i == 0x50 then Operation(NoReg, RegB, Shl) else if i == 0x58 then Operation(NoReg, RegB, Shr)
    else if i == 0x60 then Operation(RegC, NoReg, Shl) else if i == 0x68 then Operation(RegC, NoReg, Shr)
    else if i == 0x70 then Operation(NoReg, RegD, Shl) else if i == 0x78 then Operation(NoReg, RegD, Shr)
    else if i == 0x80 then Operation(RegA, RegB, Add) else if i == 0x88 then Operation(RegA, RegB, Sub)
    else if i == 0x90 then Operation(RegC, RegB, Add) else if i == 0x98 then Operation(RegC, RegB, Sub)
    else if i == 0xA0 then Operation(RegC, RegD, Add) else if i == 0xA8 then Operation(RegC, RegD, Sub)
    else if i == 0xB0 then Operation(RegA, RegD, Add) else if i == 0xB8 then Operation(RegA, RegD, Sub)
    else Operation(NoReg, NoReg, Add)
  }

  /** One ALU pass into a destination: the register, the IO bus and R5. */
  function PassRegs(r: Registers, dst: RegName, op: Op, x: Digits, y: Digits, m: Mask): Registers {
    var z := Operand(y, m);
    Put(r, dst, Result(Get(r, dst), op, x, z, m)).(sout := Bus(op, x, z, m), r5 := NewR5(r.r5, op, x, z, m))
  }

  function Pass(s: State, dst: RegName, op: Op, x: Digits, y: Digits, m: Mask): State {
    s.(regs := PassRegs(s.regs, dst, op, x, y, m),
       flags := s.flags.(cond := s.flags.cond && !ClearsCond(op, x, Operand(y, m), m)))
  }

  /** The constant-ROM row: KR bits 4-6 and 8-11, row 0 past the table's 64 rows. */
  function ConstantRow(kr: bv16): bv16 {
    var row := ((kr >> 5) & 0x78) | ((kr >> 4) & 0x07);
    if row >= 64 then 0 else row
  }

  /** MOV dst,#0: a pending SCOM recall or RAM read delivers the masked row instead of zeros. */
  function LoadSource(chip: Chip, s: State, m: Mask): Digits {
    if s.flags.recall then Masked(s.mem.scom[s.mem.regAddr], m)
    else if s.flags.ramRead && s.mem.ramAddr < chip.ramSize then Masked(s.mem.ram[s.mem.ramAddr], m)
    else ZERO_DIGITS
  }

  function LoadPhase(chip: Chip, s: State, dst: RegName, m: Mask): State {
    var y := LoadSource(chip, s, m);
    s.(regs := PassRegs(s.regs, dst, Add, ZERO_DIGITS, y, m),
       flags := s.flags.(
         cond := s.flags.cond && !ClearsCond(Add, ZERO_DIGITS, Operand(y, m), m),
         recall := false,
         ramRead := s.flags.ramRead && (s.flags.recall || s.mem.ramAddr >= chip.ramSize)))
  }

  /** MOV dst,R5 and its subtracting form; a no-op for the destinations without a register. */
  function NibblePhase(s: State, dst: RegName, op: Op, m: Mask): State
    requires Selects(m)
  {
    var loaded := Loaded(Get(s.regs, dst), m, s.regs.r5);
    s.(regs := if dst == NoReg then s.regs else PassRegs(Put(s.regs, dst, loaded), dst, op, ZERO_DIGITS, loaded, m),
       flags := s.flags.(cond := s.flags.cond && (dst == NoReg || !ClearsCond(op, ZERO_DIGITS, Operand(loaded, m), m))))
  }

  function AluPhase(chip: Chip, s: State, opcode: bv16, m: Mask): State
    requires Selects(m)
  {
    var dst := Destination(opcode);
    var i := opcode & 0x00F8;
    if i == 0xC0 then Pass(s, dst, Add, s.regs.a, chip.constants(ConstantRow(s.kr)), m)
    else if i == 0xC8 then Pass(s, dst, Sub, s.regs.a, chip.constants(ConstantRow(s.kr)), m)
    else if i == 0xD0 then LoadPhase(chip, s, dst, m)
    else if i == 0xD8 then Pass(s, dst, Sub, ZERO_DIGITS, ZERO_DIGITS, m)
    else if i == 0xE0 then Pass(s, dst, Add, s.regs.c, chip.constants(ConstantRow(s.kr)), m)
    else if i == 0xE8 then Pass(s, dst, Sub, s.regs.c, chip.constants(ConstantRow(s.kr)), m)
    else if i == 0xF0 then NibblePhase(s, dst, Add, m)
    else if i == 0xF8 then NibblePhase(s, dst, Sub, m)
    else
      var o := Decode(opcode);
      Pass(s, dst, o.op, Get(s.regs, o.x), Get(s.regs, o.y), m)
  }

  function ExchangeRegs(r: Registers, opcode: bv16, m: Mask): Registers {
    var d := opcode & 0x0007;
    if d == 2 then r.(a := Exchanged(r.a, r.b, m), b := Exchanged(r.b, r.a, m))
    else if d == 5 then r.(c := Exchanged(r.c, r.d, m), d := Exchanged(r.d, r.c, m))
    else if d == 7 then r.(a := Exchanged(r.a, r.e, m), e := Exchanged(r.e, r.a, m))
    else r
  }

  function ExchangePhase(s: State, opcode: bv16, m: Mask): State {
    s.(regs := ExchangeRegs(s.regs, opcode, m))
  }

  /** What the IO bus shows an observer: zeros unless the last instruction drove it. */
  function BusData(s: State): Digits {
    if s.flags.ioValid then s.regs.sout else ZERO_DIGITS
  }

  /** RAM with registers first..first + count cleared. */
  function ClearedRows(ram: RamRows, first: nat, count: nat): RamRows {
    seq(120, i requires 0 <= i < 120 => if first <= i < first + count then ZERO_DIGITS else ram[i])
  }

  function CapturePhase(s: State, m: Mask): State {
    s.(mem := s.mem.(ramMask := if s.flags.ramWrite || s.flags.ramRead then m else s.mem.ramMask))
  }

  function StorePhase(s: State): State {
    s.(mem := s.mem.(scom := if s.flags.store then s.mem.scom[s.mem.regAddr := BusData(s)] else s.mem.scom),
       flags := s.flags.(store := false))
  }

  /** RAM_OP's specification on the bus: the operation in digit 0, the register in digits 3 and 2. */
  function SpecOp(bus: Digits): Nibble { bus[0] % 16 }

  function SpecAddr(bus: Digits): Byte { (bus[3] as int * 10 + bus[2]) % 0x100 }

  /** Operation 2 clears all of RAM, operation 4 ten registers from the address on. */
  function RamAfterSpec(chip: Chip, ram: RamRows, op: Nibble, addr: Byte): RamRows {
    if op == 2 then ClearedRows(ram, 0, 120)
    else if op == 4 && addr < chip.ramSize then ClearedRows(ram, addr, 10)
    else ram
  }

  function SpecPhase(chip: Chip, s: State): State {
    var op, addr := SpecOp(BusData(s)), SpecAddr(BusData(s));
    s.(mem := s.mem.(ramOp := op, ramAddr := addr, ram := RamAfterSpec(chip, s.mem.ram, op, addr)),
       flags := s.flags.(
         ramOp := false,
         ramWrite := s.flags.ramWrite || (op == 1 && addr < chip.ramSize),
         ramRead := s.flags.ramRead || (op == 0 && addr < chip.ramSize)))
  }

  /** The deferred write: the bus goes into the captured field of the latched register. */
  function WritePhase(chip: Chip, s: State): State {
    var a := s.mem.ramAddr;
    s.(flags := s.flags.(ramWrite := false),
       mem := if a < chip.ramSize && s.mem.ramMask.start != 0xFF
              then s.mem.(ram := s.mem.ram[a := Exchanged(s.mem.ram[a], BusData(s), s.mem.ramMask)])
              else s.mem)
  }

  function RamOpPhase(chip: Chip, s: State): State {
    if s.flags.ramOp then SpecPhase(chip, s)
    else if s.flags.ramWrite then WritePhase(chip, s)
    else s
  }

  function ReleaseBus(s: State): State {
    s.(regs := s.regs.(sout := if s.flags.ioValid then s.regs.sout else ZERO_DIGITS))
  }

  function DriveIO(s: State, opcode: bv16): State {
    s.(flags := s.flags.(ioValid := s.flags.ioValid || DrivesIO(opcode)))
  }

  function ExecuteAlu(chip: Chip, s: State, opcode: bv16): State
    requires IsAlu(opcode)
  {
    var m := FieldMask(opcode);
    var s1 := AluPhase(chip, DriveIO(s, opcode), opcode, m);
    var s2 := CapturePhase(ExchangePhase(s1, opcode, m), m);
    ReleaseBus(RamOpPhase(chip, StorePhase(s2)))
  }

  // ---------------------------------------------------------------- flag operations

  function ClearCond(s: State, when: bool): State {
    s.(flags := s.flags.(cond := s.flags.cond && !when))
  }

  /** Bits 1-4 of a flag register replaced by R5. */
  function WithNibble(flagReg: bv16, r5: Byte): bv16 {
    (flagReg & 0xFFE1) | (((r5 % 16) as bv16) << 1)
  }

  /** The program-visible flag registers, KR and COND, as one flag operation sees them. */
  datatype Bits = Bits(fa: bv16, fb: bv16, kr: bv16, cond: bool)

  /** The single bit an opcode names. */
  function BitOf(opcode: bv16): bv16 { 1 << (Argument(opcode) as bv5) }

  predicate HasBit(reg: bv16, bit: bv16) { reg & bit != 0 }

  function WithBit(reg: bv16, bit: bv16): bv16 { reg | bit }

  function WithoutBit(reg: bv16, bit: bv16): bv16 { reg & !bit }

  function Flipped(reg: bv16, bits: bv16): bv16 { reg ^ bits }

  /** The bit where two registers differ there, or nothing. */
  function Differ(a: bv16, b: bv16, bit: bv16): bv16 { (a ^ b) & bit }

  function FlagBits(b: Bits, r5: Byte, opcode: bv16): Bits {
    var bit := BitOf(opcode);
    var differ := Differ(b.fa, b.fb, bit);
    var sel := opcode & 0x000F;
    if sel == 0x0 then b.(cond := b.cond && !HasBit(b.fa, bit))
    else if sel == 0x1 then b.(fa := WithBit(b.fa, bit))
    else if sel == 0x2 then b.(fa := WithoutBit(b.fa, bit))
    else if sel == 0x3 then b.(fa := Flipped(b.fa, bit))
    else if sel == 0x4 then b.(fa := Flipped(b.fa, differ), fb := Flipped(b.fb, differ))
    else if sel == 0x5 then b.(kr := WithBit(b.kr, bit))
    else if sel == 0x6 then b.(fa := Flipped(b.fa, differ))
    else if sel == 0x7 then b.(fa := WithNibble(b.fa, r5))
    else if sel == 0x8 then b.(cond := b.cond && !HasBit(b.fb, bit))
    else if sel == 0x9 then b.(fb := WithBit(b.fb, bit))
    else if sel == 0xA then b.(fb := WithoutBit(b.fb, bit))
    else if sel == 0xB then b.(fb := Flipped(b.fb, bit))
    else if sel == 0xC then b.(cond := b.cond && differ != 0)
    else if sel == 0xD then b.(kr := WithoutBit(b.kr, bit))
    else if sel == 0xE then b.(fb := Flipped(b.fb, differ))
    else b.(fb := WithNibble(b.fb, r5))
  }

  function FlagOp(s: State, opcode: bv16): State {
    var b := FlagBits(Bits(s.fa, s.fb, s.kr, s.flags.cond), s.regs.r5, opcode);
    s.(fa := b.fa, fb := b.fb, kr := b.kr, flags := s.flags.(cond := b.cond))
  }

  // ---------------------------------------------------------------- keyboard

  function LowestBit(k: bv8): bv16 {
    if k & 1 != 0 then 0 else if k & 2 != 0 then 1 else if k & 4 != 0 then 2 else if k & 8 != 0 then 3
    else if k & 16 != 0 then 4 else if k & 32 != 0 then 5 else 6
  }

  /** The K-lines of a row that the opcode asks for and that are pressed; none on a chord. */
  function PressedIn(row: bv8, opcode: bv16): bv8 {
    var wanted := ((((opcode & 0x07) | ((opcode >> 1) & 0x78)) ^ 0x7F) & 0xFF) as bv8;
    var k := wanted & row;
    if k & (k - 1) != 0 then 0 else k
  }

  predicate ScansAll(opcode: bv16) { opcode & 0x0008 == 0 }

  /** KR after a key was found: its row in bits 4-7, its K-line in bits 8-10. */
  function KeyCode(row: Nibble, lines: bv8): bv16 {
    ((row as bv16) << 4) | ((LowestBit(lines) << 8) & 0x0700)
  }

  function KeyScan(s: State, opcode: bv16): State {
    var k := PressedIn(s.key[s.digit], opcode);
    var scanAll := ScansAll(opcode);
    s.(polled := true,
       flags := s.flags.(cond := s.flags.cond && k == 0, hold := s.flags.hold || (scanAll && k == 0 && s.digit != 0)),
       kr := if scanAll && k != 0 then KeyCode(s.digit, k) else s.kr)
  }

  // ---------------------------------------------------------------- card reader

  /** The bank a header byte names: banks 0 to 3 are coded 0, 3, 6, 9. */
  function BankOf(header: bv8): nat {
    var n := header & 0x0F;
    if n < 3 then 0 else if n < 6 then 1 else if n < 9 then 2 else if n < 12 then 3 else 4
  }

  function BankSlice(full: FullCard, bank: nat): BankImage
    requires bank < 4
  {
    full[bank * BANK_BYTES..(bank + 1) * BANK_BYTES]
  }

  function WithBank(full: FullCard, bank: nat, image: BankImage): FullCard
    requires bank < 4
  {
    full[..bank * BANK_BYTES] + image + full[(bank + 1) * BANK_BYTES..]
  }

  /** A byte on the EXT bus, bits 4-11. */
  function OnBus(b: bv8): bv16 { (b as bv16) << 4 }

  /** KR bits 4-11. */
  function KeyByte(kr: bv16): bv8 { ((kr >> 4) & 0xFF) as bv8 }

  /** IN CRD: the next byte of a read pass, in EXT bits 4-11. */
  function InCard(s: State): State {
    var c := s.card;
    var ready := c.present && c.mode == Reading && c.ptr < BANK_BYTES;
    s.(flags := s.flags.(extValid := true),
       ext := if ready then OnBus(c.bank[c.ptr]) else 0,
       card := if ready then c.(ptr := c.ptr + 1) else c)
  }

  /** OUT CRD: KR bits 4-11 are the next byte of a write pass. */
  function OutCard(s: State): State {
    var c := s.card;
    var ready := c.present && c.mode == Writing && c.ptr < BANK_BYTES;
    s.(card := if ready then c.(bank := c.bank[c.ptr := KeyByte(s.kr)], ptr := c.ptr + 1) else c)
  }

  /** CRD_OFF: a write pass lands in its bank; either way the card leaves the reader. */
  function FinishPass(c: Card): Card {
    var bank := BankOf(c.bank[2]);
    var off := c.(mode := NoPass, ptr := 0, present := false);
    match c.mode
    case Writing => if bank < 4 then off.(full := WithBank(c.full, bank, c.bank), written := Some(bank)) else off
    case Reading => off.(bank := c.bank[2 := (c.bank[2] + 3) & 0x0F])
    case NoPass => off
  }

  function CardOff(chip: Chip, s: State): State {
    s.(card := FinishPass(s.card), key := PressSwitch(chip, s.key))
  }

  function StartRead(c: Card): Card {
    var bank := BankOf(c.bank[2]);
    if c.mode != NoPass then c
    else c.(bank := if bank < 4 then BankSlice(c.full, bank) else c.bank, mode := Reading, ptr := 0)
  }

  function CardRead(s: State): State {
    s.(card := StartRead(s.card))
  }

  function CardWrite(s: State): State {
    s.(card := if s.card.mode == NoPass then s.card.(mode := Writing, ptr := 0) else s.card)
  }

  function PressSwitch(chip: Chip, key: KeyMatrix): KeyMatrix {
    key[chip.cardSwitchCol := key[chip.cardSwitchCol] | CARD_SWITCH]
  }

  function ReleaseSwitch(chip: Chip, key: KeyMatrix): KeyMatrix {
    key[chip.cardSwitchCol := key[chip.cardSwitchCol] & !CARD_SWITCH]
  }

  /** A read card's bytes (none for a blank card) at the start of the image. */
  function Inserted(data: seq<bv8>): Card {
    var n := if |data| >= 4 * BANK_BYTES then 4 * BANK_BYTES else |data|;
    var full: FullCard := data[..n] + seq(4 * BANK_BYTES - n, _ => 0);
    Card(true, false, full, seq(BANK_BYTES, _ => 0), 0, NoPass, None)
  }

  /** insertCard: the card is in the reader, which releases the switch. */
  function InsertCard(chip: Chip, s: State, data: seq<bv8>): State {
    s.(card := Inserted(data), key := ReleaseSwitch(chip, s.key))
  }

  predicate Filled(c: Card) { c.written.Some? && c.written.value < 4 }

  function Ejected(c: Card): Card {
    c.(present := false, waiting := false, mode := NoPass, written := if Filled(c) then None else c.written)
  }

  /** The bank the last write pass filled, nothing after a read. */
  function EjectedBytes(c: Card): seq<bv8> {
    if Filled(c) then BankSlice(c.full, c.written.value) else []
  }

  /** cardEject. */
  function CardEject(chip: Chip, s: State): (State, seq<bv8>) {
    (s.(key := PressSwitch(chip, s.key), card := Ejected(s.card)), EjectedBytes(s.card))
  }

  // ---------------------------------------------------------------- printer

  function Min(a: nat, b: nat): nat { if a <= b then a else b }

  /** How much of a line is on paper `elapsed` cycles after it started. */
  function CutLine(codes: seq<bv8>, elapsed: nat): CodeLine {
    var rows, into := elapsed / 508, elapsed % 508;
    if rows < 7 && into >= 18 then
      var fired := into - 18;
      var cols := Min(5, fired / 64 + 1);
      CodeLine(codes, rows, cols, Min(255, fired - (cols - 1) * 64))
    else CodeLine(codes, Min(7, rows), 0, 0)
  }

  function FlushPending(p: Printer, elapsed: nat): Printer {
    if p.pending.Some? then p.(codeLines := p.codeLines + [CutLine(p.pending.value, elapsed)], pending := None) else p
  }

  /** The line in progress is cut where the countdown stands. */
  function FlushActive(p: Printer): Printer {
    FlushPending(p, if p.busyCycles <= PRINTER_LINE_CYCLES then PRINTER_LINE_CYCLES - p.busyCycles else 0)
  }

  function PutSlot(p: Printer, text: string, code: bv8): Printer {
    var slot := p.ptr % 20;
    p.(buf := p.buf[slot := text], codes := p.codes[slot := code], ptr := slot + 1)
  }

  /** Entry `k` of the character table. */
  function GlyphAt(chip: Chip, k: nat): string
    requires k < 64
  {
    chip.glyph(k as bv8)
  }

  /** The code of a single-character glyph, 0 when the table has none. */
  function CharCode(chip: Chip, c: char, from: nat): bv8
    decreases 64 - from
  {
    if from >= 64 then 0 else if GlyphAt(chip, from) == [c] then from as bv8 else CharCode(chip, c, from + 1)
  }

  /** A mnemonic's characters, last one first. */
  function PutMnemonic(chip: Chip, p: Printer, chars: string): Printer
    decreases |chars|
  {
    if chars == [] then p
    else
      var c := chars[|chars| - 1];
      PutMnemonic(chip, PutSlot(p, [c], CharCode(chip, c, 0)), chars[..|chars| - 1])
  }

  function Reversed<T>(s: seq<T>): seq<T> {
    seq(|s|, i requires 0 <= i < |s| => s[|s| - 1 - i])
  }

  function PrintCode(kr: bv16): bv8 { ((kr >> 4) & 0x3F) as bv8 }

  function MnemonicCode(kr: bv16): bv8 { ((kr >> 4) & 0x7F) as bv8 }

  function OutPrint(chip: Chip, s: State): State {
    var code := PrintCode(s.kr);
    s.(prn := if s.prn.ready then PutSlot(s.prn, chip.glyph(code), code) else s.prn)
  }

  function OutPrintFunction(chip: Chip, s: State): State {
    s.(prn := if s.prn.ready then PutMnemonic(chip, s.prn, chip.mnemonic(MnemonicCode(s.kr))) else s.prn)
  }

  function PrintClear(s: State): State {
    s.(prn := s.prn.(buf := seq(20, _ => " "), codes := seq(20, _ => 0), ptr := 0, ready := true))
  }

  function PrintStep(s: State): State {
    s.(prn := if s.prn.ready then PutSlot(s.prn, " ", 0) else s.prn)
  }

  /** PRT_PRINT: commit the text and start the line, or abort a line in progress. */
  function LineStarted(p: Printer): Printer {
    if p.busyCycles > 0 && p.pending.Some? then FlushActive(p)
    else p.(lines := p.lines + [Reversed(p.buf)], pending := Some(Reversed(p.codes)), busyCycles := PRINTER_LINE_CYCLES)
  }

  function Printed(p: Printer): Printer { if p.ready then LineStarted(p) else p }

  predicate StartsLine(p: Printer) { p.ready && !(p.busyCycles > 0 && p.pending.Some?) }

  function PrintLine(s: State): State {
    s.(prn := Printed(s.prn), flags := s.flags.(busy := s.flags.busy || StartsLine(s.prn)))
  }

  function FeedStarted(p: Printer): Printer {
    var q := FlushActive(p);
    q.(lines := q.lines + [[]], codeLines := q.codeLines + [CodeLine(seq(20, _ => 0), 7, 0, 0)], busyCycles := PRINTER_FEED_CYCLES)
  }

  function PrintFeed(s: State): State {
    s.(prn := FeedStarted(s.prn), flags := s.flags.(busy := true))
  }

  /** The BUSY countdown at the start of every step: a line is complete when it runs out. */
  function CountedDown(p: Printer): Printer {
    if p.busyCycles == 0 then p
    else if p.busyCycles == 1 then FlushPending(p.(busyCycles := 0), PRINTER_LINE_CYCLES)
    else p.(busyCycles := p.busyCycles - 1)
  }

  function Countdown(s: State): State {
    s.(prn := CountedDown(s.prn), flags := s.flags.(busy := s.flags.busy && s.prn.busyCycles != 1))
  }

  // ---------------------------------------------------------------- library

  function ExecFetchPC(v: Variant): bv16 { if v == TI58C then 0x0823 else 0x082F }

  /** Digit `pos` of the library pointer, lowest first. */
  function PointerDigit(addr: nat, pos: nat): bv16 {
    var divisor := if pos == 0 then 1 else if pos == 1 then 10 else if pos == 2 then 100 else 1000;
    ((addr / divisor % 10) as bv16) << 4
  }

  /** The pointer shifted right by a digit, KR bits 4-7 on top. */
  function PointerShifted(addr: nat, kr: bv16): nat { addr / 10 + (Argument(kr) as nat) * 1000 }

  function HighNibble(b: bv8): bv16 { (b & 0xF0) as bv16 }

  function InLib(chip: Chip, s: State): State {
    var l := s.lib;
    s.(ext := OnBus(chip.library(l.addr)),
       flags := s.flags.(extValid := true),
       lib := l.(addr := (l.addr + 1) % 5000, execPC := if s.addr == ExecFetchPC(chip.variant) then Some(l.addr) else l.execPC))
  }

  function OutLibPC(s: State): State {
    var l := s.lib;
    var pos := if l.wasWriting then l.readPos else 0;
    s.(lib := l.(addr := PointerShifted(l.addr, s.kr), readPos := (pos + 1) % 4, wasWriting := true))
  }

  function InLibPC(s: State): State {
    var l := s.lib;
    var pos := if l.wasWriting then 0 else l.readPos;
    s.(ext := PointerDigit(l.addr, pos), flags := s.flags.(extValid := true),
       lib := l.(readPos := (pos + 1) % 4, wasWriting := false))
  }

  function InLibHigh(chip: Chip, s: State): State {
    s.(ext := HighNibble(chip.library(s.lib.addr)), flags := s.flags.(extValid := true))
  }

  // ---------------------------------------------------------------- wait / control

  function MemAddress(sout: Digits): Byte { (sout[1] as int * 16 + sout[0]) % 0x100 }

  /** MEMWR (write) and MEMRD latch the RAM register from the IO bus. */
  function MemoryLatch(chip: Chip, s: State, write: bool): State {
    var a := MemAddress(s.regs.sout);
    s.(mem := s.mem.(ramAddr := a),
       flags := s.flags.(
         ramWrite := s.flags.ramWrite || (write && a < chip.ramSize),
         ramRead := s.flags.ramRead || (!write && a < chip.ramSize)))
  }

  /** Bits 1-4 of fA or fB, as the opcode selects. */
  function FlagNibble(opcode: bv16, fa: bv16, fb: bv16): Byte {
    (((if opcode & 0x0010 != 0 then fb else fa) >> 1) & 0x0F) as Byte
  }

  /** MEMWR, MEMRD and MOV R5,fA/fB. */
  function MemoryOrFlags(chip: Chip, s: State, opcode: bv16): State {
    var arg := Argument(opcode);
    if arg == 0x7 || arg == 0x8 then MemoryLatch(chip, s, arg == 0x7)
    else s.(regs := s.regs.(r5 := FlagNibble(opcode, s.fa, s.fb)))
  }

  /** KR bits 4-7. */
  function KeyNibble(kr: bv16): Byte { ((kr >> 4) & 0x0F) as Byte }

  function WithKeyNibble(kr: bv16, r5: Byte): bv16 { (kr & 0xFF0F) | ((r5 as bv16) << 4) }

  function KeyToR5(s: State): State {
    s.(regs := s.regs.(r5 := KeyNibble(s.kr)))
  }

  function R5ToKey(s: State): State {
    s.(kr := WithKeyNibble(s.kr, s.regs.r5))
  }

  function ArmRamOp(s: State): State {
    s.(flags := s.flags.(ramOp := true))
  }

  function Peripheral(chip: Chip, s: State, opcode: bv16): State {
    var sel := Argument(opcode);
    if sel == 0x0 then KeyToR5(s)
    else if sel == 0x1 then R5ToKey(s)
    else if sel == 0x2 then InCard(s)
    else if sel == 0x3 then OutCard(s)
    else if sel == 0x4 then CardOff(chip, s)
    else if sel == 0x5 then CardRead(s)
    else if sel == 0xC then CardWrite(s)
    else if sel == 0x6 then OutPrint(chip, s)
    else if sel == 0x7 then OutPrintFunction(chip, s)
    else if sel == 0x8 then PrintClear(s)
    else if sel == 0x9 then PrintStep(s)
    else if sel == 0xA then PrintLine(s)
    else if sel == 0xB then PrintFeed(s)
    else if sel == 0xF then ArmRamOp(s)
    else s
  }

  predicate SwitchSeen(row: bv8) { row & CARD_SWITCH != 0 }

  /** TST BUSY, which is also how the ROM waits for a card. */
  function TestBusy(chip: Chip, s: State): State {
    var sw := SwitchSeen(s.key[s.digit]);
    s.(card := s.card.(waiting := s.card.waiting || (!s.card.present && s.digit == chip.cardSwitchCol && sw)),
       polled := s.polled || (sw && !s.flags.busy),
       flags := s.flags.(cond := s.flags.cond && !sw && !s.flags.busy))
  }

  function LibraryOp(chip: Chip, s: State, opcode: bv16): State {
    var sel := Argument(opcode);
    if sel == 0 then InLib(chip, s)
    else if sel == 1 then OutLibPC(s)
    else if sel == 2 then InLibPC(s)
    else if sel == 3 then InLibHigh(chip, s)
    else s
  }

  function RegisterNumber(sout: Digits): Nibble { sout[0] % 16 }

  /** STO and RCL latch the SCOM register number from the IO bus. */
  function StoreRecall(s: State, opcode: bv16): State {
    var sel := Argument(opcode);
    if sel == 0 || sel == 1 then
      s.(mem := s.mem.(regAddr := RegisterNumber(s.regs.sout)),
         flags := s.flags.(store := s.flags.store || sel == 0, recall := s.flags.recall || sel == 1))
    else s
  }

  function IncKR(kr: bv16): bv16 {
    var k := kr + 0x0010;
    if k & 0xFFF0 == 0 then k ^ 0x0001 else k
  }

  function Control(chip: Chip, s: State, opcode: bv16): State {
    var sel := opcode & 0x000F;
    if sel == 0x6 then MemoryOrFlags(chip, s, opcode)
    else if sel == 0x8 then Peripheral(chip, s, opcode)
    else if sel == 0xB then TestBusy(chip, s)
    else if sel == 0xE then LibraryOp(chip, s, opcode)
    else if sel == 0xF then StoreRecall(s, opcode)
    else PlainControl(s, opcode)
  }

  predicate TestsKR(kr: bv16, opcode: bv16) { HasBit(kr, BitOf(opcode)) }

  predicate OtherDigit(digit: Nibble, opcode: bv16) { digit as bv16 != Argument(opcode) }

  /** KR with EXT in its upper twelve bits. */
  function KeyFromExt(kr: bv16, ext: bv16): bv16 { (kr & 0x000F) | ext }

  /** WAIT Dn, IDL, KR and the whole-register flag operations. */
  function PlainControl(s: State, opcode: bv16): State {
    var sel := opcode & 0x000F;
    if sel == 0x0 then s.(flags := s.flags.(hold := s.flags.hold || OtherDigit(s.digit, opcode)))
    else if sel == 0x1 then s.(flags := s.flags.(idle := false))
    else if sel == 0x2 then s.(fa := 0)
    else if sel == 0x4 then s.(kr := IncKR(s.kr))
    else if sel == 0x5 then ClearCond(s, TestsKR(s.kr, opcode))
    else if sel == 0x7 then s.(regs := s.regs.(r5 := Argument(opcode) as Byte))
    else if sel == 0x9 then s.(flags := s.flags.(idle := true))
    else if sel == 0xA then s.(fb := 0)
    else if sel == 0xC then s.(kr := KeyFromExt(s.kr, s.ext))
    else if sel == 0xD then s.(kr := s.sr, sr := s.kr)
    else s
  }

  // ---------------------------------------------------------------- one step

  /** COND auto-restore: the first non-branch instruction after a jump sequence. */
  function Restore(s: State, opcode: bv16): State {
    var restores := !IsBranch(opcode) && s.flags.jump;
    s.(flags := s.flags.(jump := s.flags.jump && !restores, cond := s.flags.cond || restores))
  }

  /** Digit counter, HOLD, and the one-cycle windows of EXT and the IO bus. */
  function Enter(s: State): State {
    s.(digit := if s.digit == 0 then 15 else s.digit - 1,
       polled := false,
       ext := if s.flags.extValid then s.ext else 0,
       regs := s.regs.(sout := if s.flags.ioValid then s.regs.sout else ZERO_DIGITS),
       flags := s.flags.(hold := false, extValid := false, ioValid := false))
  }

  function Offset(opcode: bv16): bv16 { (opcode >> 1) & 0x3FF }

  predicate WantsCond(opcode: bv16) { opcode & 0x0800 != 0 }

  predicate GoesBack(opcode: bv16) { opcode & 1 != 0 }

  /** Taken when COND agrees with bit 11; bits 1-10 are the distance, bit 0 the direction. */
  function BranchTarget(cond: bool, addr: bv16, opcode: bv16): bv16 {
    if cond != WantsCond(opcode) then addr + 1
    else if GoesBack(opcode) then addr - Offset(opcode)
    else addr + Offset(opcode)
  }

  function Branch(s: State, opcode: bv16): State {
    s.(flags := s.flags.(jump := true), addr := BranchTarget(s.flags.cond, s.addr, opcode))
  }

  function Execute(chip: Chip, s: State, opcode: bv16): State
    requires !IsBranch(opcode)
  {
    if High(opcode) == 0x0000 then FlagOp(s, opcode)
    else if High(opcode) == 0x0800 then KeyScan(s, opcode)
    else if High(opcode) == 0x0A00 then Control(chip, s, opcode)
    else ExecuteAlu(chip, s, opcode)
  }

  /** The program counter: HOLD freezes it, a latched PREG redirects it. */
  function Redirect(s: State): State {
    s.(addr := NextAddr(s.flags.hold, s.preg, s.addr), preg := if s.flags.hold then s.preg else 0)
  }

  function NextAddr(hold: bool, preg: bv16, addr: bv16): bv16 {
    if hold then addr else if preg != 0 then preg else addr + 1
  }

  /** SET KR[1] latches the next redirect. */
  function LatchPreg(s: State): State {
    s.(preg := LatchedPreg(s.kr, s.preg), kr := LatchTaken(s.kr))
  }

  function LatchedPreg(kr: bv16, preg: bv16): bv16 {
    if kr & 2 != 0 then (kr >> 4) | ((kr & 1) << 12) else preg
  }

  function LatchTaken(kr: bv16): bv16 { kr & 0xFFFD }

  /** One instruction after its fetch. */
  function Perform(chip: Chip, s: State, opcode: bv16): State {
    if IsBranch(opcode) then Branch(Enter(s), opcode)
    else LatchPreg(Redirect(Execute(chip, Enter(s), opcode)))
  }

  /** beginNextStep: the fetch, and COND's auto-restore for what was fetched. */
  function Begin(chip: Chip, s: State): State {
    Restore(s, chip.rom(s.addr))
  }

  function Step(chip: Chip, s: State): State {
    var t := Begin(chip, Countdown(s));
    Perform(chip, t, chip.rom(t.addr))
  }

  /** reset(): everything but the user RAM, the print queues and the wiring. */
  function Reset(s: State): State {
    var z := ZERO_DIGITS;
    var p := FlushActive(s.prn);
    State(Registers(z, z, z, z, z, z, 0), 0, 0, 0, 0, 0, 0,
          Flags(false, false, false, false, false, false, false, false, false, false, true, false), 0, 0,
          Memory(seq<Digits>(16, _ => z), s.mem.ram, 0, 0, 0, s.mem.ramMask), Library(0, 0, false, None),
          Card(false, false, seq(4 * BANK_BYTES, _ => 0), seq(BANK_BYTES, _ => 0), 0, NoPass, None),
          p.(buf := seq(20, _ => " "), ptr := 0, ready := false, busyCycles := 0),
          seq(16, _ => 0), s.polled)
  }

  /** Cycle weight of the step that led to `s`: idle steps take four cycles but on the TI-58C. */
  function Weight(chip: Chip, s: State): nat {
    if s.flags.idle && chip.variant != TI58C then 4 else 1
  }
}
