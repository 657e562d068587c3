/**
 The card reader and the printer as the CPU keeps them: buffers, pointers and flags updated in
 place, each operation proved against the function of the state machine it performs.
 */
module Peripherals {
  import opened Words
  import opened Core
  import CardReader

  /** The reader and the printer as they are when the machine is switched on. */
  function NoCard(): Card { Card(false, false, seq(4 * BANK_BYTES, _ => 0), seq(BANK_BYTES, _ => 0), 0, NoPass, None) }

  function NewPrinter(): Printer { Printer(seq(20, _ => " "), seq(20, _ => 0), 0, false, 0, None, [], []) }

  /** The reader: the whole card, the bank under the head, and where the pass stands. */
  class CardUnit {
    const fullData: array<bv8>
    const bankBuffer: array<bv8>
    var present: bool
    var waiting: bool
    var ptr: CardIndex
    var mode: CardMode
    var lastWritten: Option<nat>

    ghost predicate Valid()
      reads this
    {
      fullData.Length == 4 * BANK_BYTES && bankBuffer.Length == BANK_BYTES && fullData != bankBuffer
    }

    ghost function AsCard(): Card
      requires Valid()
      reads this, fullData, bankBuffer
    {
      Card(present, waiting, fullData[..], bankBuffer[..], ptr, mode, lastWritten)
    }

    constructor ()
      ensures Valid() && fresh(fullData) && fresh(bankBuffer)
      ensures AsCard() == NoCard()
    {
      fullData, bankBuffer := new bv8[4 * BANK_BYTES](_ => 0), new bv8[BANK_BYTES](_ => 0);
      present, waiting, ptr, mode, lastWritten := false, false, 0, NoPass, None;
    }

    /** IN CRD. */
    method In() returns (b: bv8)
      requires Valid()
      modifies this`ptr
      ensures Valid() && AsCard() == CardReader.Advanced(old(AsCard())) && b == CardReader.Offered(old(AsCard()))
    {
      b := 0;
      if present && mode == Reading && ptr < BANK_BYTES {
        b := bankBuffer[ptr];
        ptr := ptr + 1;
      }
    }

    /** OUT CRD with the byte in KR bits 4-11. */
    method Out(b: bv8)
      requires Valid()
      modifies this`ptr, bankBuffer
      ensures Valid() && AsCard() == CardReader.Recorded(old(AsCard()), b)
    {
      if present && mode == Writing && ptr < BANK_BYTES {
        bankBuffer[ptr] := b;
        ptr := ptr + 1;
      }
    }

    /** CRD_OFF. */
    method Off()
      requires Valid()
      modifies this, fullData, bankBuffer
      ensures Valid() && AsCard() == FinishPass(old(AsCard()))
    {
      hide BankOf;
      if mode == Writing {
        var bank := BankOf(bankBuffer[2]);
        if bank < 4 {
          CopyIn(bank);
          lastWritten := Some(bank);
        }
      } else if mode == Reading {
        bankBuffer[2] := (bankBuffer[2] + 3) & 0x0F;
      }
      mode, ptr, present := NoPass, 0, false;
    }

    /** CRD_READ. */
    method Read()
      requires Valid()
      modifies this, bankBuffer
      ensures Valid() && AsCard() == StartRead(old(AsCard()))
    {
      hide BankOf;
      if mode == NoPass {
        var bank := BankOf(bankBuffer[2]);
        if bank < 4 {
          CopyOut(bank);
        }
        mode, ptr := Reading, 0;
      }
    }

    /** CRD_WRITE. */
    method Write()
      requires Valid()
      modifies this`mode, this`ptr
      ensures Valid() && AsCard() == CardReader.StartWrite(old(AsCard()))
    {
      if mode == NoPass {
        mode, ptr := Writing, 0;
      }
    }

    /** insertCard: the bytes go to the start of the image, the rest is zeroed. */
    method Insert(data: seq<bv8>)
      requires Valid()
      modifies this, fullData, bankBuffer
      ensures Valid() && AsCard() == Inserted(data)
    {
      var i := 0;
      while i < 4 * BANK_BYTES
        invariant i <= 4 * BANK_BYTES && forall k :: 0 <= k < i ==> fullData[k] == if k < |data| then data[k] else 0
      {
        fullData[i] := if i < |data| then data[i] else 0;
        i := i + 1;
      }
      assert fullData[..] == Inserted(data).full;
      i := 0;
      while i < BANK_BYTES
        invariant i <= BANK_BYTES && forall k :: 0 <= k < i ==> bankBuffer[k] == 0
        invariant fullData[..] == Inserted(data).full
      {
        bankBuffer[i] := 0;
        i := i + 1;
      }
      assert bankBuffer[..] == Inserted(data).bank;
      present, waiting, ptr, mode, lastWritten := true, false, 0, NoPass, None;
    }

    /** cardEject: the bank a write pass filled leaves with the card. */
    method Eject() returns (written: seq<bv8>)
      requires Valid()
      modifies this`present, this`waiting, this`mode, this`lastWritten
      ensures Valid() && AsCard() == Ejected(old(AsCard())) && written == EjectedBytes(old(AsCard()))
    {
      present, waiting, mode := false, false, NoPass;
      written := [];
      if lastWritten.Some? && lastWritten.value < 4 {
        written := fullData[lastWritten.value * BANK_BYTES..(lastWritten.value + 1) * BANK_BYTES];
        lastWritten := None;
      }
    }

    /** The ROM may be waiting for a card. */
    method Await(waits: bool)
      requires Valid()
      modifies this`waiting
      ensures Valid() && AsCard() == old(AsCard()).(waiting := old(waiting) || waits)
    {
      waiting := waiting || waits;
    }

    method CopyIn(bank: nat)
      requires Valid() && bank < 4
      modifies fullData
      ensures fullData[..] == WithBank(old(fullData[..]), bank, bankBuffer[..])
    {
      var at := bank * BANK_BYTES;
      var i := 0;
      while i < BANK_BYTES
        invariant i <= BANK_BYTES && bankBuffer[..] == old(bankBuffer[..])
        invariant fullData[..at + i] == old(fullData[..])[..at] + bankBuffer[..i]
        invariant fullData[at + i..] == old(fullData[..])[at + i..]
      {
        fullData[at + i] := bankBuffer[i];
        i := i + 1;
      }
      assert fullData[..] == fullData[..at + i] + fullData[at + i..];
    }

    method CopyOut(bank: nat)
      requires Valid() && bank < 4
      modifies bankBuffer
      ensures bankBuffer[..] == BankSlice(fullData[..], bank)
    {
      var at := bank * BANK_BYTES;
      var i := 0;
      while i < BANK_BYTES
        invariant i <= BANK_BYTES && fullData[..] == old(fullData[..])
        invariant bankBuffer[..i] == fullData[at..at + i]
      {
        bankBuffer[i] := fullData[at + i];
        i := i + 1;
      }
      assert bankBuffer[..] == bankBuffer[..i];
    }
  }

  /** The printer: the character buffer, the line in progress, and the lines not taken yet. */
  class PrinterUnit {
    const chip: Chip
    const buf: array<string>
    const codeBuf: array<bv8>
    var ptr: nat
    var ready: bool
    var busyCycles: nat
    var pending: Option<seq<bv8>>
    var lines: seq<seq<string>>
    var codeLines: seq<CodeLine>
    /** The BUSY flag. */
    var busy: bool

    ghost predicate Valid()
      reads this
    {
      buf.Length == 20 && codeBuf.Length == 20 && (buf as object) != (codeBuf as object)
    }

    ghost function AsPrinter(): Printer
      requires Valid()
      reads this, buf, codeBuf
    {
      Printer(buf[..], codeBuf[..], ptr, ready, busyCycles, pending, lines, codeLines)
    }

    constructor (chip: Chip)
      ensures Valid() && fresh(buf) && fresh(codeBuf) && this.chip == chip && !busy
      ensures AsPrinter() == NewPrinter()
    {
      this.chip := chip;
      buf, codeBuf := new string[20](_ => " "), new bv8[20](_ => 0);
      ptr, ready, busyCycles, pending, lines, codeLines, busy := 0, false, 0, None, [], [], false;
    }

    method Put(text: string, code: bv8)
      requires Valid()
      modifies this`ptr, buf, codeBuf
      ensures Valid() && AsPrinter() == PutSlot(old(AsPrinter()), text, code)
    {
      var slot := ptr % 20;
      buf[slot] := text;
      codeBuf[slot] := code;
      ptr := slot + 1;
    }

    /** OUT PRT. */
    method OutCharacter(code: bv8)
      requires Valid()
      modifies this`ptr, buf, codeBuf
      ensures Valid() && AsPrinter() == if ready then PutSlot(old(AsPrinter()), chip.glyph(code), code) else old(AsPrinter())
    {
      if ready {
        Put(chip.glyph(code), code);
      }
    }

    /** The code of a single-character glyph, 0 when the table has none. */
    method CodeOf(c: char) returns (code: bv8)
      ensures code == CharCode(chip, c, 0)
    {
      var i := 0;
      while i < 64
        invariant i <= 64 && CharCode(chip, c, 0) == CharCode(chip, c, i)
      {
        if GlyphAt(chip, i) == [c] {
          return i as bv8;
        }
        i := i + 1;
      }
      return 0;
    }

    /** OUT PRT_FUNC: the mnemonic's characters, last one first. */
    method OutMnemonic(code: bv8)
      requires Valid()
      modifies this`ptr, buf, codeBuf
      ensures Valid() && AsPrinter() ==
              if ready then PutMnemonic(chip, old(AsPrinter()), chip.mnemonic(code)) else old(AsPrinter())
    {
      if ready {
        hide PutSlot, CharCode;
        var chars := chip.mnemonic(code);
        var k := |chars|;
        assert chars[..k] == chars;
        while k > 0
          invariant 0 <= k <= |chars| && Valid()
          invariant PutMnemonic(chip, AsPrinter(), chars[..k]) == PutMnemonic(chip, old(AsPrinter()), chars)
        {
          k := k - 1;
          assert chars[..k + 1][..k] == chars[..k];
          var c := CodeOf(chars[k]);
          Put([chars[k]], c);
        }
      }
    }

    /** PRT_CLEAR arms the ready gate. */
    method Clear()
      requires Valid()
      modifies this`ptr, this`ready, buf, codeBuf
      ensures Valid()
      ensures AsPrinter() == old(AsPrinter()).(buf := seq(20, _ => " "), codes := seq(20, _ => 0), ptr := 0, ready := true)
    {
      var i := 0;
      while i < 20
        invariant i <= 20 && forall k :: 0 <= k < i ==> buf[k] == " " && codeBuf[k] == 0
      {
        buf[i] := " ";
        codeBuf[i] := 0;
        i := i + 1;
      }
      ptr, ready := 0, true;
    }

    /** A line in progress ends `elapsed` cycles after it started. */
    method FlushLine(elapsed: nat)
      requires Valid()
      modifies this`pending, this`codeLines
      ensures Valid() && AsPrinter() == FlushPending(old(AsPrinter()), elapsed)
    {
      if pending.Some? {
        var cut := CutAt(pending.value, elapsed);
        codeLines := codeLines + [cut];
        pending := None;
      }
    }

    method CutAt(codes: seq<bv8>, elapsed: nat) returns (cut: CodeLine)
      ensures cut == CutLine(codes, elapsed)
    {
      var rows, cols, heat := elapsed / 508, 0, 0;
      var into := elapsed % 508;
      if rows < 7 && into >= 18 {
        var fired := into - 18;
        cols := Min(5, fired / 64 + 1);
        heat := fired - (cols - 1) * 64;
      }
      cut := CodeLine(codes, Min(7, rows), cols, Min(255, heat));
    }

    method FlushNow()
      requires Valid()
      modifies this`pending, this`codeLines
      ensures Valid() && AsPrinter() == FlushActive(old(AsPrinter()))
    {
      FlushLine(if busyCycles <= PRINTER_LINE_CYCLES then PRINTER_LINE_CYCLES - busyCycles else 0);
    }

    /** PRT_PRINT: start the line, or abort the one in progress. */
    method Print()
      requires Valid()
      modifies this
      ensures Valid() && AsPrinter() == Printed(old(AsPrinter()))
      ensures busy == (old(busy) || StartsLine(old(AsPrinter())))
    {
      if ready {
        if busyCycles > 0 && pending.Some? {
          FlushNow();
        } else {
          var text, codes := [], [];
          var i := 20;
          while i > 0
            invariant 0 <= i <= 20 && |text| == |codes| == 20 - i
            invariant forall k :: 0 <= k < 20 - i ==> text[k] == buf[19 - k] && codes[k] == codeBuf[19 - k]
          {
            i := i - 1;
            text, codes := text + [buf[i]], codes + [codeBuf[i]];
          }
          assert text == Reversed(buf[..]) && codes == Reversed(codeBuf[..]);
          pending, lines, busy, busyCycles := Some(codes), lines + [text], true, PRINTER_LINE_CYCLES;
        }
      }
    }

    /** PRT_FEED. */
    method Feed()
      requires Valid()
      modifies this
      ensures Valid() && AsPrinter() == FeedStarted(old(AsPrinter())) && busy
    {
      FlushNow();
      lines, codeLines := lines + [[]], codeLines + [CodeLine(seq(20, _ => 0), 7, 0, 0)];
      busy, busyCycles := true, PRINTER_FEED_CYCLES;
    }

    /** The countdown at the start of every step. */
    method Tick()
      requires Valid()
      modifies this
      ensures Valid() && AsPrinter() == CountedDown(old(AsPrinter())) && busy == (old(busy) && old(busyCycles) != 1)
    {
      if busyCycles > 0 {
        busyCycles := busyCycles - 1;
        if busyCycles == 0 {
          busy := false;
          FlushLine(PRINTER_LINE_CYCLES);
        }
      }
    }
  }
}
