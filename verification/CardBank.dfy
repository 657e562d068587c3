/**
 A preset's CARD block as a bank image. Its data bytes are exactly what the same steps and
 registers leave in the calculator's RAM when they are keyed in, and the image is one the card
 text and the card reader carry without loss.
 */
module CardBank {
  import opened Words
  import opened Bcd
  import opened StateFile
  import CardText

  // ---------------------------------------------------------------- the RAM

  const REGISTERS := 120

  type Ram = s: seq<Nibbles16> | |s| == REGISTERS witness seq<Nibbles16>(REGISTERS, _ => seq(16, _ => 0))
  /** A step is two nibbles of its register, units first. */
  function WithStep(n: Nibbles16, slot: nat, keycode: Keycode): Nibbles16
    requires slot < 8
  {
    n[slot * 2 := keycode % 10][slot * 2 + 1 := keycode / 10]
  }

  function WriteProgramStep(ram: Ram, addr: nat, keycode: Keycode): Ram {
    if addr < REGISTERS * 8 then ram[addr / 8 := WithStep(ram[addr / 8], addr % 8, keycode)] else ram
  }

  function ReadProgramStep(ram: Ram, addr: nat): int {
    if addr >= REGISTERS * 8 then 0
    else
      var tens: int := ram[addr / 8][addr % 8 * 2 + 1];
      tens * 10 + ram[addr / 8][addr % 8 * 2]
  }

  /** Data register n is raw register 119 - n. */
  function WriteDataRegister(ram: Ram, regNum: nat, nibbles: Nibbles16): Ram {
    if regNum < REGISTERS then ram[REGISTERS - 1 - regNum := nibbles] else ram
  }

  /** A stored step reads back; every other step is as it was. */
  lemma StepReadsBack(ram: Ram, addr: nat, keycode: Keycode, other: nat)
    requires addr < REGISTERS * 8
    ensures ReadProgramStep(WriteProgramStep(ram, addr, keycode), other) ==
            if other == addr then keycode else ReadProgramStep(ram, other)
  {
    if other < REGISTERS * 8 && other != addr && other / 8 == addr / 8 {
      assert other % 8 != addr % 8;
    }
  }

  /** The calculator's RAM, written in place. */
  class Machine {
    var ram: Ram

    constructor ()
      ensures ram == ZeroRam()
    {
      ram := ZeroRam();
    }

    method StoreProgramStep(addr: nat, keycode: Keycode)
      modifies this
      ensures ram == WriteProgramStep(old(ram), addr, keycode)
    {
      if addr < REGISTERS * 8 {
        var row := ram[addr / 8];
        row := row[addr % 8 * 2 := keycode % 10];
        row := row[addr % 8 * 2 + 1 := keycode / 10];
        ram := ram[addr / 8 := row];
      }
    }

    method StoreDataRegister(regNum: nat, nibbles: Nibbles16)
      modifies this
      ensures ram == WriteDataRegister(old(ram), regNum, nibbles)
    {
      if regNum < REGISTERS {
        ram := ram[REGISTERS - 1 - regNum := nibbles];
      }
    }

    /** Keying in a card's steps, then its registers. */
    method KeyIn(steps: seq<ProgramStep>, registers: seq<RegisterValue>)
      modifies this
      ensures ram == Registers(Steps(old(ram), steps), registers)
    {
      var i := 0;
      while i < |steps|
        invariant i <= |steps| && ram == Steps(old(ram), steps[..i])
      {
        StoreProgramStep(steps[i].addr, steps[i].keycode);
        assert steps[..i + 1][..i] == steps[..i];
        i := i + 1;
      }
      assert steps[..i] == steps;
      ghost var stepped := ram;
      i := 0;
      while i < |registers|
        invariant i <= |registers| && ram == Registers(stepped, registers[..i])
      {
        if !registers[i].hidden {
          StoreDataRegister(registers[i].num, registers[i].nibbles);
        }
        assert registers[..i + 1][..i] == registers[..i];
        i := i + 1;
      }
      assert registers[..i] == registers;
    }
  }

  function ZeroRam(): Ram { seq(REGISTERS, _ => seq(16, _ => 0)) }

  function Steps(ram: Ram, steps: seq<ProgramStep>): Ram {
    if steps == [] then ram
    else
      var last := steps[|steps| - 1];
      WriteProgramStep(Steps(ram, steps[..|steps| - 1]), last.addr, last.keycode)
  }

  function Registers(ram: Ram, registers: seq<RegisterValue>): Ram {
    if registers == [] then ram
    else
      var last := registers[|registers| - 1];
      var before := Registers(ram, registers[..|registers| - 1]);
      if last.hidden then before else WriteDataRegister(before, last.num, last.nibbles)
  }

  // ---------------------------------------------------------------- a CARD block

  type Bank = x: int | 1 <= x <= 4 witness 1

  /** A card a block can define: its bank was given. */
  type Card = c: CardDef | 1 <= c.bank <= 4 witness CardDef("mem:", 1, false, None, [], [], None)

  lemma {:induction false} KeptStepsInBank(steps: seq<ProgramStep>, bank: Bank)
    ensures forall i :: 0 <= i < |StepsKept(steps, bank)| ==> StepInBank(StepsKept(steps, bank)[i].addr, bank)
    decreases |steps|
  {
    if steps != [] {
      KeptStepsInBank(steps[..|steps| - 1], bank);
    }
  }

  lemma {:induction false} KeptRegistersInBank(registers: seq<RegisterValue>, bank: Bank)
    ensures forall i :: 0 <= i < |RegistersKept(registers, bank)| ==>
              RegisterInBank(RegistersKept(registers, bank)[i].num, bank)
    decreases |registers|
  {
    if registers != [] {
      KeptRegistersInBank(registers[..|registers| - 1], bank);
    }
  }

  /** After a block is finished every listed step and register has a place in the bank. */
  lemma NothingDropped(card: Card)
    requires FinishCard(card).card.Some?
    ensures var c := FinishCard(card).card.value;
            && c.bank == card.bank
            && (forall i :: 0 <= i < |c.steps| ==> 0 <= c.steps[i].addr / 8 - 30 * (c.bank - 1) < 30)
            && (forall i :: 0 <= i < |c.registers| ==> 0 <= 119 - c.registers[i].num - 30 * (c.bank - 1) < 30)
  {
    KeptStepsInBank(card.steps, card.bank);
    KeptRegistersInBank(card.registers, card.bank);
    hide StepsKept, RegistersKept, StepErrors, RegisterErrors;
  }

  // ---------------------------------------------------------------- the bank image

  type Window = s: seq<Nibbles16> | |s| == 30 witness seq<Nibbles16>(30, _ => seq(16, _ => 0))

  function First(bank: Bank): nat { 30 * (bank - 1) }

  /** The bank's thirty raw registers. */
  function WindowOf(ram: Ram, bank: Bank): Window { ram[First(bank)..First(bank) + 30] }

  /** RAM after the card's steps and registers are keyed into a cleared calculator. */
  function KeyedIn(card: Card): Ram { Registers(Steps(ZeroRam(), card.steps), card.registers) }

  function NibbleSum(n: Nibbles16, k: nat): nat
    requires k <= 16
  {
    if k == 0 then 0 else NibbleSum(n, k - 1) + n[k - 1]
  }

  function WindowSum(w: Window, k: nat): nat
    requires k <= 30
  {
    if k == 0 then 0 else WindowSum(w, k - 1) + NibbleSum(w[k - 1], 16)
  }

  function ProgramRegs(card: Card, programRegs: nat): nat {
    if card.partition.Some? && card.partition.value >= -1 then (card.partition.value + 1) / 8 else programRegs
  }

  /** Rows 0..k of a bank image hold the window's register lines. */
  ghost predicate HoldsRows(d: seq<Byte>, w: Window, k: nat)
    requires |d| == 246 && k <= 30
  {
    forall r :: 0 <= r < k ==> d[4 + 8 * r..12 + 8 * r] == EncodeRegisterLine(w[r])
  }

  lemma StepInWindow(ram: Ram, w: Window, bank: Bank, s: ProgramStep)
    requires w == WindowOf(ram, bank)
    ensures var reg := s.addr / 8 - First(bank);
            WindowOf(WriteProgramStep(ram, s.addr, s.keycode), bank) ==
            if 0 <= reg < 30 then w[reg := WithStep(w[reg], s.addr % 8, s.keycode)] else w
  {
  }

  lemma RegisterInWindow(ram: Ram, w: Window, bank: Bank, g: RegisterValue)
    requires w == WindowOf(ram, bank)
    ensures var reg := 119 - g.num - First(bank);
            WindowOf(WriteDataRegister(ram, g.num, g.nibbles), bank) == if 0 <= reg < 30 then w[reg := g.nibbles] else w
  {
  }

  /** The bank's registers: steps, then registers, those outside the bank skipped. */
  method FillWindow(card: Card) returns (w: Window)
    ensures w == WindowOf(KeyedIn(card), card.bank)
  {
    hide WithStep, WriteProgramStep, WriteDataRegister, WindowOf;
    w := seq(30, _ => seq(16, _ => 0));
    ClearWindow(card.bank);
    var i := 0;
    while i < |card.steps|
      invariant i <= |card.steps| && w == WindowOf(Steps(ZeroRam(), card.steps[..i]), card.bank)
    {
      var s := card.steps[i];
      StepInWindow(Steps(ZeroRam(), card.steps[..i]), w, card.bank, s);
      assert card.steps[..i + 1][..i] == card.steps[..i];
      var reg := s.addr / 8 - First(card.bank);
      if 0 <= reg < 30 {
        w := w[reg := WithStep(w[reg], s.addr % 8, s.keycode)];
      }
      i := i + 1;
    }
    assert card.steps[..i] == card.steps;
    ghost var stepped := Steps(ZeroRam(), card.steps);
    i := 0;
    while i < |card.registers|
      invariant i <= |card.registers| && w == WindowOf(Registers(stepped, card.registers[..i]), card.bank)
    {
      var g := card.registers[i];
      RegisterInWindow(Registers(stepped, card.registers[..i]), w, card.bank, g);
      assert card.registers[..i + 1][..i] == card.registers[..i];
      var reg := 119 - g.num - First(card.bank);
      if !g.hidden && 0 <= reg < 30 {
        w := w[reg := g.nibbles];
      }
      i := i + 1;
    }
    assert card.registers[..i] == card.registers;
  }

  lemma ClearWindow(bank: Bank)
    ensures WindowOf(ZeroRam(), bank) == seq<Nibbles16>(30, _ => seq(16, _ => 0))
  {
  }

  /** The image of a card: header, rows from RAM, and the nibble sum mod 16 twice. */
  ghost predicate IsBankImage(card: Card, programRegs: nat, d: seq<Byte>) {
    var partition := ProgramRegs(card, programRegs) / 10;
    var w := WindowOf(KeyedIn(card), card.bank);
    && |d| == CardText.BANK_BYTES
    && d[0] == Or(0x10, partition) % 0x100 && d[1] == (if partition >= 3 * card.bank then 0x11 else 0x10)
    && d[2] == CardText.PageByteOfBank(card.bank) && d[3] == (if card.protect then 0x10 else 0x00)
    && HoldsRows(d, w, 30)
    && d[244] == d[245] == (d[0] % 16 + d[1] % 16 + d[2] % 16 + WindowSum(w, 30)) % 16
  }

  lemma RowStored(d: seq<Byte>, w: Window, r: nat, bytes: Line)
    requires |d| == 246 && r < 30 && HoldsRows(d, w, r) && bytes == EncodeRegisterLine(w[r])
    ensures var e := d[..4 + 8 * r] + bytes + d[12 + 8 * r..];
            |e| == 246 && HoldsRows(e, w, r + 1) && (forall j :: 0 <= j < 4 || 244 <= j < 246 ==> e[j] == d[j])
  {
    hide EncodeRegisterLine;
    var e := d[..4 + 8 * r] + bytes + d[12 + 8 * r..];
    forall q | 0 <= q < r + 1 ensures e[4 + 8 * q..12 + 8 * q] == EncodeRegisterLine(w[q]) {
      if q == r {
        assert e[4 + 8 * r..12 + 8 * r] == bytes;
      } else {
        assert e[4 + 8 * q..12 + 8 * q] == d[4 + 8 * q..12 + 8 * q];
      }
    }
  }

  method SumNibbles(n: Nibbles16) returns (sum: nat)
    ensures sum == NibbleSum(n, 16)
  {
    sum := 0;
    var i := 0;
    while i < 16
      invariant i <= 16 && sum == NibbleSum(n, i)
    {
      sum := sum + n[i];
      i := i + 1;
    }
  }

  method BuildCardBank(card: Card, programRegs: nat) returns (d: seq<Byte>)
    ensures IsBankImage(card, programRegs, d)
  {
    hide EncodeRegisterLine, KeyedIn, WindowOf, Or, NibbleSum;
    var w := FillWindow(card);
    var partition := ProgramRegs(card, programRegs) / 10;
    var header: seq<Byte> := [Or(0x10, partition) % 0x100, if partition >= 3 * card.bank then 0x11 else 0x10,
                   CardText.PageByteOfBank(card.bank), if card.protect then 0x10 else 0x00];
    d := header + seq(242, _ => 0);
    var sum: nat := d[0] % 16 + d[1] % 16 + d[2] % 16;
    ghost var top := sum;
    var r := 0;
    while r < 30
      invariant r <= 30 && |d| == 246 && d[..4] == header && HoldsRows(d, w, r) && sum == top + WindowSum(w, r)
    {
      var line := EncodeLine(w[r]);
      RowStored(d, w, r, line[..]);
      d := d[..4 + 8 * r] + line[..] + d[12 + 8 * r..];
      var nibbles := SumNibbles(w[r]);
      sum := sum + nibbles;
      r := r + 1;
    }
    ChecksumStored(d, w, sum % 16);
    d := d[244 := sum % 16][245 := sum % 16];
  }

  lemma ChecksumStored(d: seq<Byte>, w: Window, sum: Byte)
    requires |d| == 246 && HoldsRows(d, w, 30)
    ensures HoldsRows(d[244 := sum][245 := sum], w, 30)
  {
    hide EncodeRegisterLine;
    var e := d[244 := sum][245 := sum];
    forall r | 0 <= r < 30 ensures e[4 + 8 * r..12 + 8 * r] == EncodeRegisterLine(w[r]) {
      assert e[4 + 8 * r..12 + 8 * r] == d[4 + 8 * r..12 + 8 * r];
    }
  }

  // ---------------------------------------------------------------- what the image is good for

  /** The image's rows decode to the RAM the calculator would hold. */
  lemma ImageIsRam(card: Card, programRegs: nat, d: seq<Byte>, r: nat)
    requires IsBankImage(card, programRegs, d) && r < 30
    ensures DecodeRegisterLine(d[4 + 8 * r..12 + 8 * r]) == KeyedIn(card)[First(card.bank) + r]
  {
    hide EncodeRegisterLine, DecodeRegisterLine, KeyedIn, Or, WindowSum;
    var w := WindowOf(KeyedIn(card), card.bank);
    assert HoldsRows(d, w, 30);
    LinesInvert(w[r], EncodeRegisterLine(w[r]));
    assert w[r] == KeyedIn(card)[First(card.bank) + r];
  }

  /** The image is canonical, so a card file carries it unchanged, and a reader pass accepts it. */
  lemma ImageIsCanonical(card: Card, programRegs: nat, d: seq<Byte>)
    requires IsBankImage(card, programRegs, d)
    ensures CardText.Canonical(d) && d[2] % 16 <= 11 && CardText.BankOfPageByte(d[2]) == card.bank
  {
    hide HoldsRows, KeyedIn, Or, WindowSum, WindowOf;
    PageOfBank(card.bank);
    hide CardText.PageByteOfBank, CardText.BankOfPageByte;
  }

  lemma PageOfBank(bank: Bank)
    ensures var page := CardText.PageByteOfBank(bank);
            page in {0x10, 0x13, 0x16, 0x19} && page % 16 <= 11 && CardText.BankOfPageByte(page) == bank
  {
  }

  /** A card built from a block and saved comes back from its file. */
  lemma ImageSurvivesFile(card: Card, programRegs: nat, d: seq<Byte>, v1: string -> Option<CardText.Document>)
    requires IsBankImage(card, programRegs, d)
    ensures var doc := CardText.Document(2, None, [Some(d), None], []);
            var text := CardText.EncodeDocument(doc);
            CardText.IsRaw(text) && CardText.DecodeCardFile(text, v1) == CardText.Card(doc)
  {
    ImageIsCanonical(card, programRegs, d);
    hide IsBankImage;
    var doc := CardText.Document(2, None, [Some(d), None], []);
    CardText.CardTextRoundTrip(doc, v1);
  }
}
