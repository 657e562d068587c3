# A model of the Calc-U-59 emulator

Calc-U-59 emulates the TI-59, TI-58 and TI-58C calculators down to the TMC0501 CPU. This project
models the parts where a low-level mechanism has to agree with something simple, and proves that
it does, for all inputs and all runs.

| part | files |
|---|---|
| The CPU: digit-serial ALU, flags, keyboard scan, deferred memory, library pointer, program counter | `Words`, `Alu`, `AluArithmetic`, `Core`, `CoreFrames`, `Runs`, `Execution`, `DeferredMemory`, `Debugger` |
| What each instruction does, in the instruction set's own terms: integers, bits and digits, with an encoder of its own | `Bits`, `InstructionSet`, `Branches`, `AluEffects`, `FlagEffects`, `ScanEffects`, `ControlEffects`, `PeripheralEffects` |
| The same CPU in place: register arrays, flat memory blocks, units, the dispatcher | `RegisterFile`, `UserMemory`, `Datapath`, `Peripherals`, `Processor` |
| The card reader and the printer of the CPU | `CardReader`, `PrinterLog` |
| The trace: ring of frames, drain, writer, file, reader | `Tracing`, `TraceFile`, `TraceAccount`, `TraceSession` |
| Timed key input: resumable tasks on two lanes, and the physical keyboard | `KeySequencer`, `Keyboard` |
| The cooperative run loop and its pacing | `RunLog`, `Runner`, `Pacing` |
| Text: lines, words, numbers, UTF-8, register numbers | `TextUtil`, `Utf8`, `Spaces`, `Bcd` |
| Card files, card blocks of presets, the preset parser, the keycode walk | `CardText`, `CardSides`, `CardAccepted`, `CardBank`, `StateFile`, `CardBlocks`, `ProgramListing`, `PresetText`, `KeyNames` |

How the pieces are modelled:

- The CPU is modelled twice. As a function from state to state (`Core`) it is what the theorems
  are about. As a class (`Processor.Tmc0501`) it works in place, with the register arrays that may
  be source and destination at once, flat blocks for SCOM and RAM that share the IO bus with the
  ALU, and the card reader and the printer as units; every step of the class is a step of the
  function, so the theorems hold of it.
- Both models decode opcodes by the same tables; so every instruction is also stated from the
  instruction set, encoded by an encoder that shares nothing with the decoder.
- The trace ring, the trace writer, the key lanes, the run loop, the pace and the fitted card are
  classes too, each proved against functions on values.
- ROM contents, constants, glyphs and library bytes are arbitrary functions; opcodes are any
  16-bit words. Theorems about all opcode sequences cover every ROM (`Execution.StepsAreARun`).
- What the key sequencer's looks at host and machine show is any sequence of answers, the machine
  under the run loop is any machine, and cancels may come in at every look. Times are integers in nanoseconds.
- Text is bytes, one to a character.

What the proofs found:

- Mask constants are or-ed into the second source, not added: with a second source the sum is
  off exactly when the two share a bit, and mask 11 (constant 5) makes an 8 or a 9 an illegal
  digit.
- `MOV dst,R5` in its subtracting form is right up to a first digit of 10; from 11 on the digit
  written is not decimal.
- A write pass whose third byte has a low nibble above 11 is lost. A bank with such a byte written
  into a card's file makes the whole file unreadable, its other side included; no write pass of the
  reader hands one out.
- With exactly 1024 frames waiting, a `beginNextStep` that runs ahead of its step spoils the oldest
  frame before the drain delivers it. A frame drained while it is the last one is written as it was
  then: the step after it still patches the ring's copy, not the file's. These two are the only
  differences between the frames finished and the frames in the files.
- A frame is brought up to its step's state at the next fetch. If the next step is not fully traced, it
  keeps the registers its instruction found, or shows those of a later step.
- A trace file begins with the frames that were finished but not drained when it was opened.
- Past 2560 significant digits an integer literal's exponent starts over.
- `pump` runs at most six batches at regular speed unless a callback restarts the loop inside it;
  then it runs one for every 20 ms since the clock's epoch. The comment that a started schedule
  always begins at `now` holds once the clock reads more than 100 ms.
- The run loop's batches come in the order of the queue unless a callback's start finds a job at the
  head of it: after stop, a drain and a post, the restarted loop goes on in the same pump ahead of the
  job, which then runs between two of its batches. After stop, post and start without a drain the old
  loop's mark stays at the head, and the job waits until the new loop has stopped.
- The keycode walk does not skip the label of `LBL`, so a label named by a key that takes an operand
  makes the step after it an operand. `FIX IND` and `STF IND` are two codes, of which it takes the
  second for the operand; then it reads the register's number as an opcode, which its comment says never
  happens.
- Cut after the first two bytes of a three-byte space, a text's last two bytes count as three.
- After a reset the printer's text buffer is blank while its code buffer is not; the ready gate is
  what keeps the two from being printed.

## Model

| member | source | states |
|---|---|---|
| RegisterFile.AluUnit.RunAlu | Core/TMC0501.cpp:362-409 | The digit-serial pass over the register arrays, sources and destination possibly the same array, leaves in the destination, the IO bus, R5 and COND exactly what the digit-by-digit specification gives from the registers before the pass. |
| RegisterFile.AluUnit.Xch | Core/TMC0501.cpp:411-416 | Swaps the masked field of two register arrays and nothing else. |
| RegisterFile.AluUnit.LoadR5 | Core/TMC0501.cpp:1091-1102 | MOV dst,R5 and its subtracting form in place: field cleared, constant then R5 placed, one ALU pass over the register onto itself. |
| RegisterFile.AluUnit.Exchange | Core/TMC0501.cpp:1108-1114 | The three exchange destinations swap A/B, C/D, A/E under the mask; every other destination swaps nothing. |
| Alu.UptoIsResult | Core/TMC0501.cpp:394-403 | After the last position the partially written destination is the finished result, for ADD, SUB and both shifts. |
| AluArithmetic.FieldModulusIs | Core/TMC0501.cpp:97-114 | A field without digit 0 holds numbers mod 10^w; a field from digit 0 is the mixed-radix case, 16 * 10^(w-1). |
| AluArithmetic.ValueDeterminesDigits | Core/TMC0501.cpp:384-392 | A field of legal digits is determined by its number, so the arithmetic theorems fix every digit. |
| AluArithmetic.AddIsModular | Core/TMC0501.cpp:362-409 | ADD writes (X + Y) mod the field size, keeps digits legal and the rest of the register unchanged, and clears COND exactly on a carry out of the field, for every mask including ALL. |
| AluArithmetic.SubIsModular | Core/TMC0501.cpp:362-409 | SUB writes (X - Y) mod the field size by way of the 8-bit wrap of a negative sum, and clears COND exactly on a borrow. |
| AluArithmetic.DecimalAdd | Core/TMC0501.cpp:362-409 | In a decimal field, with no constant or no second source, ADD writes (X + Y + K) mod 10^w with legal digits; COND cleared exactly on overflow; digits outside untouched. |
| AluArithmetic.DecimalSub | Core/TMC0501.cpp:362-409 | The same for SUB and (X - Y - K) mod 10^w. |
| AluArithmetic.AddWithConstant | Core/TMC0501.cpp:369-372 | With a constant and a second source the constant is or-ed in, so the result is X + Y + K exactly when Y and K share no bit at the constant position. |
| AluArithmetic.SubWithConstant | Core/TMC0501.cpp:369-373 | The same condition, both ways, for SUB. |
| AluArithmetic.AddConstantCounterexample | Core/TMC0501.cpp:370 | 1 + 1 with mask 15 and its constant 1 gives 2, not 3: a shared bit is lost. |
| AluArithmetic.OperandLegal | Core/TMC0501.cpp:97-114 | Or-ing a mask constant keeps a legal operand legal in every mask but one: mask 11 with digit 3 at 8 or 9. |
| AluArithmetic.ShlTimesTen | Core/TMC0501.cpp:394-403 | SHL multiplies a decimal field by ten mod 10^w, leaves COND alone, and moves every digit up by one. |
| AluArithmetic.ShrByTen | Core/TMC0501.cpp:394-403 | SHR divides a decimal field by ten, rounding down, and leaves COND alone. |
| AluArithmetic.NibbleLoad | Core/TMC0501.cpp:1091-1102 | MOV dst,R5 leaves the number of R5 and the mask constant (or-ed where both fall on one digit) modulo the field size, for every mask and every nibble 0 to 15, digits legal; with two or more digits and a constant below 9, as in the table, nothing wraps; COND is cleared exactly on a wrap. |
| AluArithmetic.NibbleLoadNegated | Core/TMC0501.cpp:1091-1102 | The subtracting form leaves minus that number with legal digits if and only if the first digit is at most its base: up to 10 in a decimal field. |
| Datapath.AluPath.ExecAlu | Core/TMC0501.cpp:1005-1180 | An ALU instruction in place: bus, pass with aliased arrays, exchange, then the store, RAM operation or write an access left under way; registers, COND, memory and latches end as the state machine has them. |
| Processor.Tmc0501.ExecuteOpcode | Core/TMC0501.cpp:542-951 | Every instruction that is not a branch, executed in place over arrays, fields and units, leaves the whole CPU in the state the state machine gives. |
| Processor.Tmc0501.FlagOperation | Core/TMC0501.cpp:544-571 | The sixteen single-bit operations in place; the conditional forms of exchange, copy and compare are the bitwise ones of the specification. |
| Processor.OneBit | Core/TMC0501.cpp:555-557 | Two registers agree at the bit an opcode names or differ by exactly that bit, so flipping under a test is copying it. |
| Processor.Tmc0501.Step | Core/TMC0501.cpp:461-538 | One step in place: whatever state the CPU was in, it is then in the state machine's next one. |
| Processor.Tmc0501.Run | Core/TMC0501.cpp:461-538 | So after any number of steps: every theorem about runs of the state machine is one about the CPU in place. |
| Processor.Tmc0501.Insert | Core/TMC0501.cpp:1184-1209 | insertCard in place, switch included. |
| Processor.Tmc0501.Eject | Core/TMC0501.cpp:1211-1224 | cardEject in place: the bytes it returns and the state it leaves. |
| Branches.JumpGoes | Core/TMC0501.cpp:510-538 | A branch encoded from its direction, distance and wanted COND goes, in integers, to (address + d) or (address - d) mod 65536 when COND is as it wants, else to address + 1 mod 65536; JUMP is set, and nothing else of the state the cycle began with changes. |
| Branches.NextGoes | Core/TMC0501.cpp:952-969 | After any other instruction the program goes on at address + 1 mod 65536, at PREG when a redirect is waiting, or stays on HOLD. |
| Branches.PregLatches | Core/TMC0501.cpp:952-969 | KR bit 1 becomes a redirect: PREG gets KR's bits 4 to 15 with bit 0 on top, bit by bit, and KR bit 1 goes out. |
| Branches.CycleBegins | Core/TMC0501.cpp:484-504 | A cycle begins with every register, latch and memory as it was, the digit counter one down, HOLD off, EXT and the IO bus kept only if they were written the cycle before. |
| Branches.CycleEnds | Core/TMC0501.cpp:952-970 | What an instruction's own work does stands at the end of its cycle, but for KR bit 1 and the address. |
| AluEffects.ComputeDoes | Core/TMC0501.cpp:1005-1180 | Every arithmetic instruction of the set, encoded from operation, sources, field and target, is one digit pass over exactly those sources, constant-ROM and SCOM rows included, into that target, with exactly its exchange. |
| AluEffects.SumsDo | Core/TMC0501.cpp:1025-1090 | On legal digits an adding or subtracting instruction leaves X + Y + K or X - Y - K, reduced modulo the field's size, in its target, K less the bits a second source has already; COND is cleared exactly when the total is outside the field, and everything else stands. |
| AluEffects.ShiftsDo | Core/TMC0501.cpp:1025-1090 | In a decimal field without a constant the shifts leave ten times the register modulo the field's size, or a tenth of it rounded down, COND as it was and everything else in place. |
| AluEffects.LoadsDo | Core/TMC0501.cpp:1091-1102 | The loads of R5 leave R5 with the field's constant, or minus that, in the target, for every nibble. |
| AluEffects.RowIs | Core/TMC0501.cpp:1046-1062 | The constant-ROM row is the one KR's bits 4 to 6 and 8 to 10 spell, row 0 when bit 11 is on. |
| FlagEffects.TestFlagDoes | Core/TMC0501.cpp:551-559 | TST of a bit of fA or fB clears COND exactly when the bit is on, and changes nothing else. |
| FlagEffects.SetFlagDoes | Core/TMC0501.cpp:552-560 | SET puts that one bit on, every other bit stands. |
| FlagEffects.ClearFlagDoes | Core/TMC0501.cpp:553-561 | CLR puts that one bit out, every other bit stands. |
| FlagEffects.InvertFlagDoes | Core/TMC0501.cpp:554-562 | INV turns that one bit over, every other bit stands. |
| FlagEffects.SwapFlagsDoes | Core/TMC0501.cpp:555 | XCH gives each register the other's bit at that place and no other bit. |
| FlagEffects.CopyFlagDoes | Core/TMC0501.cpp:557-565 | MOV copies the named bit of the other register and no other bit. |
| FlagEffects.CompareFlagsDoes | Core/TMC0501.cpp:563 | CMP clears COND exactly when the two bits are equal. |
| FlagEffects.SetKeyBitDoes | Core/TMC0501.cpp:556 | SET KR puts that one bit of KR on. |
| FlagEffects.ClearKeyBitDoes | Core/TMC0501.cpp:564 | CLR KR puts that one bit of KR out. |
| FlagEffects.FlagsFromR5Does | Core/TMC0501.cpp:558-566 | MOV fA[1..4],R5 and its fB form put R5's four bits into bits 1 to 4, lowest first, every other bit stands. |
| ScanEffects.ScanFinds | Core/TMC0501.cpp:579-618 | A scan that finds exactly one of the lines it asks for pressed clears COND, and, scanning all rows, puts row and column into KR bits 4 to 10. |
| ScanEffects.ScanMisses | Core/TMC0501.cpp:579-618 | A scan that finds none, or a chord, leaves COND and KR alone and, scanning all rows, holds but at row 0. |
| ControlEffects.WaitDigitDoes | Core/TMC0501.cpp:624-639 | WAIT Dn holds exactly while the digit counter is not n. |
| ControlEffects.ClearIdleDoes | Core/TMC0501.cpp:640-643 | CLR IDL leaves the idle mode and does nothing else. |
| ControlEffects.SetIdleDoes | Core/TMC0501.cpp:849-854 | SET IDL enters the idle mode and does nothing else. |
| ControlEffects.ClearFlagsDoes | Core/TMC0501.cpp:644-855 | CLR fA and CLR fB clear their own sixteen bits only. |
| ControlEffects.SwapKeyDoes | Core/TMC0501.cpp:879-882 | XCH KR,SR swaps the two. |
| ControlEffects.TestKeyBitDoes | Core/TMC0501.cpp:656-659 | TST KR clears COND exactly when the bit is on. |
| ControlEffects.LoadR5Does | Core/TMC0501.cpp:694-697 | MOV R5,#n loads n. |
| ControlEffects.IncKeyDoes | Core/TMC0501.cpp:648-655 | INC KR counts KR's upper twelve bits modulo 4096; on their wrap bit 0 toggles; bits 1 to 3 stay. |
| ControlEffects.ExtToKeyDoes | Core/TMC0501.cpp:875-878 | MOV KR,EXT takes bits 4 to 15 from EXT and keeps KR's lowest four. |
| ControlEffects.FlagsToR5Does | Core/TMC0501.cpp:687-692 | MOV R5,fA[1..4] and its fB form give R5 the digit those four bits spell. |
| PeripheralEffects.KeyToR5Does | Core/TMC0501.cpp:700 | MOV R5,KR[4..7] gives R5 the digit those bits spell. |
| PeripheralEffects.R5ToKeyDoes | Core/TMC0501.cpp:701 | MOV KR[4..7],R5 puts the digit's bits there and keeps every other bit. |
| PeripheralEffects.InCardDoes | Core/TMC0501.cpp:702-709 | IN CRD puts the next byte of a read pass into EXT bits 4 to 11, nothing outside one. |
| PeripheralEffects.OutCardDoes | Core/TMC0501.cpp:710-714 | OUT CRD takes KR bits 4 to 11 as the next byte of a write pass. |
| PeripheralEffects.OutPrintDoes | Core/TMC0501.cpp:752-761 | OUT PRT puts the character KR bits 4 to 9 name into the next of twenty places. |
| PeripheralEffects.OutMnemonicDoes | Core/TMC0501.cpp:762-780 | OUT PRT_FUNC takes the mnemonic KR bits 4 to 10 name. |
| PeripheralEffects.RamOpDoes | Core/TMC0501.cpp:838-848 | RAM_OP arms the specification and does nothing else. |
| PeripheralEffects.MemWriteDoes | Core/TMC0501.cpp:671-681 | MEMWR latches the RAM register 16 * digit 1 + digit 0 of the bus and arms the write exactly when there is such a register. |
| PeripheralEffects.MemReadDoes | Core/TMC0501.cpp:682-686 | MEMRD latches it and arms the read. |
| PeripheralEffects.StoreDoes | Core/TMC0501.cpp:938 | STO latches the SCOM register the bus's digit 0 names. |
| PeripheralEffects.RecallDoes | Core/TMC0501.cpp:939 | RCL latches it and arms the recall. |
| PeripheralEffects.InLibDoes | Core/TMC0501.cpp:885-896 | IN LIB puts the byte under the library pointer into EXT bits 4 to 11 and moves the pointer on, round at 5000; only a fetch from the interpreter's site notes the step. |
| PeripheralEffects.OutLibPCDoes | Core/TMC0501.cpp:897-910 | OUT LIB_PC drops the pointer's last decimal digit and puts KR bits 4 to 7 in as its thousands. |
| PeripheralEffects.InLibPCDoes | Core/TMC0501.cpp:911-922 | IN LIB_PC puts the pointer's next decimal digit, lowest first, into EXT bits 4 to 7. |
| PeripheralEffects.InLibHighDoes | Core/TMC0501.cpp:923-928 | IN LIB_HIGH puts the byte's upper half into EXT bits 4 to 7 and leaves the pointer. |
| PeripheralEffects.TestBusyDoes | Core/TMC0501.cpp:857-874 | TST BUSY clears COND exactly when BUSY or bit 4 of the active row is on. |
| PeripheralEffects.SwitchIs | Core/TMC0501.cpp:1184-1224 | The card switch is bit 4 of its row and no other line of the matrix. |
| PeripheralEffects.BankIs | Core/TMC0501.cpp:715-735 | A header byte names the bank that is a third of its low digit, none from 12 on. |
| UserMemory.Ram.ClearReg | Core/RAM.cpp:31-35 | Clearing registers of the flat block clears exactly those rows, as far as there are any. |
| UserMemory.Ram.WriteReg | Core/RAM.cpp:26-29 | One row of the flat block is replaced, every other row is as it was. |
| UserMemory.MemoryUnit.Load | Core/TMC0501.cpp:1068-1087 | What a recall or a RAM read delivers, and the latch it takes back. |
| UserMemory.MemoryUnit.DecodeSpec | Core/TMC0501.cpp:1140-1160 | RAM_OP's specification in place: clear all, clear ten, or latch a read or a write. |
| UserMemory.MemoryUnit.Complete | Core/TMC0501.cpp:1116-1178 | Mask capture, store, RAM operation and write, and the release of the bus, in place and in this order, are the phases of the state machine. |
| Execution.StepsAreARun | Core/TMC0501.cpp:461-539 | n steps from ROM are the run of the opcodes they fetch, so statements about all opcode sequences cover every ROM. |
| DeferredMemory.FillerKeeps | Core/TMC0501.cpp:542-951 | Every instruction that is neither ALU nor a latch leaves latches, memory and registers alone and lets the IO bus go. |
| DeferredMemory.AccessIsAtomic | Core/TMC0501.cpp:1116-1178 | An address on the bus, its latch, any fillers and the completing ALU instruction act on SCOM and RAM as one atomic store, recall, write, read or clear, and leave nothing under way. |
| DeferredMemory.ProgramRefinesFile | Core/TMC0501.cpp:1064-1178 | Any program whose latches stand in accesses refines an atomic register file: its memory is the accesses' effects applied in order, all other instructions notwithstanding. |
| DeferredMemory.LoadDelivers | Core/TMC0501.cpp:1068-1086 | The completing MOV dst,#0 puts exactly the row's field into the register, and touches nothing else of it. |
| DeferredMemory.NamedByDigits | Core/TMC0501.cpp:839-946 | Which register an access reads or writes, by the digits on the bus: SCOM by digit 0, MEMWR and MEMRD by 16 * digit 1 + digit 0, RAM_OP by 10 * digit 3 + digit 2 with its operation in digit 0; outside the RAM nothing happens. |
| DeferredMemory.RamReadBack | Core/TMC0501.cpp:1136-1174 | A field written to a RAM register is what a later read of that field, or of any part of it, delivers, across any program that leaves the digits read alone: it may write other fields of the same register. |
| DeferredMemory.ScomReadBack | Core/TMC0501.cpp:1123-1134 | The same for SCOM stores and recalls. |
| DeferredMemory.RamReadDelivers | Core/TMC0501.cpp:1077-1083 | A MEMRD or RAM_OP read delivers the file's register field, whatever fillers stand between its instructions. |
| DeferredMemory.ScomReadDelivers | Core/TMC0501.cpp:1069-1076 | An RCL access delivers the file's SCOM field. |
| DeferredMemory.MoveToBus | Core/TMC0501.cpp:376-382 | A plain move to IO puts the register's field on the bus and zeros around it. |
| DeferredMemory.LateLatchGetsZero | Core/TMC0501.cpp:497-504 | Any fillers between the address and the latch are too many: STO and RCL then latch SCOM register 0, MEMWR and MEMRD RAM register 0, and the access is under way there, whatever the address was. |
| Debugger.BeginIdempotent | Core/TMC0501.cpp:1335-1345 | beginNextStep twice is beginNextStep once. |
| Debugger.BeginThenStep | Core/TMC0501.cpp:474-476 | A step does not see whether its fetch phase already ran. |
| Debugger.ExtraBeginsAreInvisible | Core/TMC0501.cpp:1325-1345 | Two runs with the same steps, one with extra beginNextStep calls anywhere: the state after every step is the same. |
| Tracing.LowerBound | Core/TMC0501.cpp:1301-1313 | The binary search returns the first position not below the address in the sorted breakpoint list. |
| Tracing.TracedCpu.AddBreakpoint | Core/TMC0501.cpp:1301-1306 | The list stays sorted and holds the address once. |
| Tracing.TracedCpu.RunStep | Core/TMC0501.cpp:461-476 | Whatever flags, breakpoints and ring hold, the CPU takes exactly one step of the state machine; with tracing on one more frame is logged with that step's number, address, opcode and weight; fully traced the frame holds the registers as the instruction found them, and the frame of the step just before holds from then on what that one left. |
| Tracing.TracedCpu.BeginNextStep | Core/TMC0501.cpp:1335-1391 | The CPU changes only by the fetch phase; the log grows by nothing and keeps every frame's identity. |
| Tracing.TracedCpu.TracePostStep | Core/TMC0501.cpp:1534-1545 | The captured frame is finished and enters the log, the head advances by one. |
| Tracing.TracedCpu.DrainCpuFrames | Core/TMC0501.cpp:1547-1576 | Frames are delivered in order from the cursor, each once; overwritten ones are skipped and counted exactly once; the drained frames are the logged ones but for the first slot when a capture ran ahead of its step into a full ring. |
| Tracing.CaptureTakesOldest | Core/TMC0501.cpp:1490-1495 | With 1024 frames waiting, a beginNextStep ahead of its step puts the upcoming address into the oldest of them, and the drain delivers it. |
| TraceFile.FrameRoundTrip | tools/read_trace.py:97-183 | A frame's payload, unpacked by the reader, gives back its number, address, opcode and every register nibble; of EXT bits 4 to 11, of the display state whether it was on; it begins with the suppressed count 0. |
| TraceFile.RecordRoundTrip | tools/read_trace.py:248-269 | A length-prefixed record reads back as the record, whatever follows it. |
| TraceFile.BodyRoundTrip | tools/read_trace.py:248-269 | Any list of records reads back in order, gaps skipped as the reader skips them. |
| TraceFile.ReadTrace | tools/read_trace.py:214-272 | The reader's loop keeps exactly the records the specification reads, of files of either version, and fails on exactly its errors. |
| TraceFile.FileRoundTrip | tools/read_trace.py:214-269 | A whole trace file, header included, loads as the frames that were written. |
| TraceSession.TraceWriter.Open | Shared/TraceWriter.cpp:53-85 | A created file holds the header and the session start, nothing of an earlier session. |
| TraceSession.TraceWriter.Write | Shared/TraceWriter.cpp:107-153 | The frame is appended and counted; past the size limit the session end is appended and the writer closes, which is what the result says. |
| TraceSession.TraceWriter.WriteLostGap | Shared/TraceWriter.cpp:155-161 | An open writer gets one gap record with the count. |
| TraceSession.TraceWriter.Close | Shared/TraceWriter.cpp:92-100 | The session end carries the number of frames written. |
| TraceAccount.FedAll | Shared/TraceWriter.cpp:107-153 | A writer that stays below its limit holds every frame offered to it, in order. |
| TraceSession.Session.DrainTrace | Shared/EmulatorSession.cpp:236-254 | One drain: each open writer gets one gap with the count the ring lost, if any, then the finished frames from there on, converted, up to its limit; a closed one stands; at most one frame joins each set of exceptions, the slot a capture ahead overwrote in a full ring and the frame that is still the last. |
| TraceSession.ProducedIsLoaded | tools/read_trace.py:214-269 | Conservation from the CPU to the reader, in every state that steps, extra fetch phases, openings, closings, user events and drains in any order lead to: each file loads, and its frames are, one for one and in order, finished frames at rising indices from where the ring stood at the opening, with their number and weight, and with every field but for the exceptions, which are the drains' own: the first frame of a drain of a full ring captured ahead, and the last frame of a drain that reached the ring's head; the frames missing in between are as many as the gaps say; an open file reaches up to the drain cursor. |
| TraceSession.LoadedIsTheStep | Shared/TraceWriter.cpp:107-145 | The frame loaded for step k shows, field by field, what step k did: its address, opcode and ticks, KR, SR, fA, fB, EXT bits 4 to 11, PREG, R5, digit, latches, library pointer, A to E and IO as the step left them, each flag at its bit, the display at the next fetch; in sessions fully traced all along for every k but the two named exceptions, else for every k that a fully traced step followed at once. |
| TraceAccount.FlagsAtTheirBits | Core/TMC0501.hpp:56-94 | Bit b of the flag word is set exactly when the flag of that bit is on, for all sixteen bits. |
| TraceAccount.RecordShowsStep | Shared/TraceWriter.cpp:107-145 | The record of a frame that holds what its step left shows the step; by then the next fetch has restored COND, dropped JUMP and counted BUSY down. |
| TraceAccount.EachOnce | Shared/TraceWriter.cpp:107-161 | Every index between the opening and the end of the account has exactly one record: its own frame, or the one gap it lies in. |
| TraceAccount.DrainMatches | Shared/TraceWriter.cpp:107-145 | The frames of a drain, as the writer puts their fields, are the logged ones from the cursor on, but for the exceptions the drain adds. |
| TraceAccount.LoadedShow | tools/read_trace.py:97-183 | What is loaded from a file that keeps the account shows the finished frames its records stand for, one for one. |
| TraceSession.Session.RunStep | Core/TMC0501.cpp:461-476 | A step, which patches the last frame and finishes the next, leaves the account of both files true. |
| TraceSession.Session.BeginNextStep | Core/TMC0501.cpp:1335-1391 | So does a fetch phase ahead of its step. |
| TraceSession.Session.CloseManual | Shared/EmulatorSession.cpp:223-228 | Closing drains first, then ends the session; the drain joins the session's drains and adds its own exceptions and no others; a file not open stays as it is; the account of both files stands. |
| TraceSession.Session.CloseScripted | Shared/EmulatorSession.cpp:269-273 | The same for the scripted trace. |
| TraceSession.FileReadsBack | tools/read_trace.py:214-269 | What a closed writer's file loads as is the frames it was given. |
| CoreFrames.PerformKeeps | Core/TMC0501.cpp:542-951 | No instruction but the six printer ones touches the printer or BUSY; none but the five card ones touches the card or its switch. |
| PrinterLog.CharCodeOk | Core/TMC0501.cpp:46-52 | A character's code is a code of that glyph, or 0 when the table has none. |
| PrinterLog.StepOk | Core/TMC0501.cpp:466-472 | One step keeps text lines and code lines in step, whatever it executes. |
| PrinterLog.PrinterConservation | Core/TMC0501.cpp:795-837 | From an unused printer, after any run of steps, drains, resets, card moves and key changes: as many text lines as code lines, one more while a line is in progress, line k of one spelling line k of the other; BUSY exactly while the countdown is positive; a line in progress has 0 < countdown <= 4165. |
| PrinterLog.CutShowsStartedColumns | Core/TMC0501.cpp:1238-1255 | A line cut after any number of cycles carries exactly the columns whose start time r*508 + 18 + j*64 had come, for all rows r < 7 and columns j < 5. |
| PrinterLog.CutHeat | Core/TMC0501.hpp:545-556 | The last started column was heated since its own start, 255 cycles at most, and the next column had not started. |
| Peripherals.PrinterUnit.Print | Core/TMC0501.cpp:795-820 | In place: a line starts from the buffer read right to left, or the line in progress is cut and the new one ignored. |
| Peripherals.PrinterUnit.Feed | Core/TMC0501.cpp:821-837 | In place: the line in progress is cut first, then a blank line enters both queues. |
| Peripherals.PrinterUnit.OutMnemonic | Core/TMC0501.cpp:762-780 | In place: the mnemonic's characters enter the buffer last one first, each with its code. |
| Peripherals.PrinterUnit.Tick | Core/TMC0501.cpp:466-472 | In place: the countdown drops by one, BUSY falls and the line completes exactly when it runs out. |
| CardReader.CardStep | Core/TMC0501.cpp:702-751 | Each card instruction does its work on card, switch and EXT, and nothing else of the reader. |
| CardReader.WritePass | Core/TMC0501.cpp:710-714 | A write pass with any other instructions in between lays what KR held at each OUT CRD into the image in order; past byte 246 nothing. |
| CardReader.ReadPass | Core/TMC0501.cpp:702-709 | A read pass puts the image's bytes into KR in order, then zeros. |
| CardReader.PassLands | Core/TMC0501.cpp:715-735 | After CRD_OFF and eject the card holds the stream if its third byte names a bank, and nothing otherwise. |
| CardReader.CardRoundTrip | Core/TMC0501.cpp:702-751 | Written, ejected, inserted and read again, a stream of 246 bytes arrives in KR if and only if the low nibble of its third byte is at most 11; otherwise zeros arrive. |
| CardReader.SwitchShowsCard | Core/TMC0501.cpp:1184-1224 | In every reachable state the card switch is pressed exactly when no card is in the reader. |
| Peripherals.CardUnit.Off | Core/TMC0501.cpp:715-735 | In place: a written bank is copied into the card, a read pass advances the bank, the card leaves. |
| Peripherals.CardUnit.Read | Core/TMC0501.cpp:736-745 | In place: the bank under the head is copied into the buffer and a read pass starts, unless one is on. |
| KeySequencer.Lane.TurnToPress | Shared/KeySequencer.cpp:142-156 | One look: uncancelled, the key goes down exactly when the mode's condition on frozen and scan loop holds of what the look showed, for 100 ms, a keyboard tap with its highlight; else it is looked at again 1.5 ms after the last look; cancelled, nothing is told. |
| KeySequencer.Lane.TurnHolding | Shared/KeySequencer.cpp:157-161 | A held key comes up exactly once its 100 ms are over, cancelled or not, and the machine is waited for. |
| KeySequencer.Lane.TurnIdle | Shared/KeySequencer.cpp:162-167 | After a key the task goes on exactly when the one look made shows the machine frozen or in its scan loop, or the task is cancelled; else it looks again 1.5 ms after the last look. |
| KeySequencer.Lane.TurnHost | Shared/KeySequencer.cpp:184-189 | After a reload, a card or a control the task goes on exactly when the one look made shows nothing pending, or the task is cancelled. |
| KeySequencer.Lane.TurnNext | Shared/KeySequencer.cpp:190-198 | A task that ran out, or a script that was cancelled, reports its end; a cancelled tap sequence just stops; else the next event begins. |
| KeySequencer.Lane.TurnToApply | Shared/KeySequencer.cpp:172-183 | One look: uncancelled, the reload or card itself goes to the host exactly when the machine runs in its scan loop, and the host is waited for. |
| KeySequencer.Lane.TurnEvent | Shared/KeySequencer.cpp:198-232 | How each kind of event begins: what exactly the host is told, and what the task waits for and since when. |
| KeySequencer.Lane.Step | Shared/KeySequencer.cpp:127-236 | A task runs until it waits for a later time or is over; every turn has fewer events left or a later phase, with any cancels and any host answers. |
| KeySequencer.Lane.TakeNext | Shared/KeySequencer.cpp:41-48 | The first task not cancelled leaves the queue; without stale tasks none is dropped. |
| KeySequencer.Lane.TurnSleeping | Shared/KeySequencer.cpp:168-171 | A Wait goes on until its time is over, or it is cancelled. |
| KeySequencer.Lane.Advance | Shared/KeySequencer.cpp:66-83 | The lane keeps its whole account: what the host was told is the meanings of the tasks that ended and the one in progress; the wake time returned is later than now, by 100 ms at most for a held key and 1.5 ms at most for a look; idle means an empty queue. A Wait sleeps from its beginning for all its nanoseconds, and uncancelled nothing happens on the lane before they are over. |
| KeySequencer.Lane.Cancel | Shared/KeySequencer.cpp:31-38 | The queue empties, the task in progress is cancelled, the account stands. |
| KeySequencer.LaneKeysPaired | Shared/KeySequencer.cpp:142-161 | In every state of a lane, each press in its log is answered by the release of the same key as the next key call, at least 100 ms later, or is the key now held; and each release answers such a press. |
| KeySequencer.LaneWaitsAfterKey | Shared/KeySequencer.cpp:157-167 | In every state of a lane: after a key came up nothing more is told, but for a highlight, before a look that found the machine frozen or in its scan loop, or found its task cancelled, and then it was. |
| KeySequencer.LaneWaitsForHost | Shared/KeySequencer.cpp:172-189 | In every state of a lane: after a reload, a card or a control nothing more is told before a look that found nothing pending, or found its task cancelled, and then it was; reloads and cards went out into a running scan loop. |
| KeySequencer.PressAnswered | Shared/KeySequencer.cpp:142-161 | In a log that keeps the discipline every press is so answered or is the key still down. |
| KeySequencer.ReleaseAnswers | Shared/KeySequencer.cpp:157-161 | Every release answers such a press. |
| KeySequencer.PlaybacksPaired | Shared/KeySequencer.cpp:136-139 | Started and finished alternate over every run, cancelled or not, and the playing flag says which came last. |
| KeySequencer.NothingLost | Shared/KeySequencer.cpp:41-83 | A lane never cancelled and with nothing left to do carried out every task it was given, whole and in order, and told the host exactly their events. |
| Keyboard.Sequencer.LiftKey | Shared/KeySequencer.cpp:280-294 | The held key comes up at once after 100 ms, else is put off to that moment. |
| Keyboard.Sequencer.PressKeys | Shared/KeySequencer.cpp:256-278 | One code is pressed and held after the previous key was lifted and taps were cancelled; several become one tap sequence. |
| Keyboard.Sequencer.ReleaseAll | Shared/KeySequencer.cpp:296-306 | Whatever is held comes up at once and taps are cancelled. |
| Keyboard.Sequencer.ReleaseDue | Shared/KeySequencer.cpp:316-328 | Exactly the keys due come up, earliest first; the next due time is the least left. |
| Keyboard.Sequencer.Advance | Shared/KeySequencer.cpp:108-117 | Time never goes back, no due release is left, both lanes keep their accounts. |
| Keyboard.AllKeysUp | Shared/KeySequencer.cpp:256-328 | With nothing held and nothing due, the presses are the releases, each once. |
| Pacing.Targets | Core/MachineVariant.hpp:29-39 | The batch targets are 284, 240 and 246 weighted cycles. |
| Pacing.RunBatch | Shared/Pacing.cpp:5-24 | A batch is the steps up to the first that halts or reaches the target; the carry and the polled flag are what those steps give. |
| Pacing.OvershootIsSmall | Shared/Pacing.cpp:7-22 | A batch run to its end overshoots by 0 to 3 cycles. |
| Pacing.Pace.Batch | Shared/Pacing.hpp:34-40 | A batch that is not stopped keeps the schedule on its grid: cycles run are batches * target + last offset + carry. |
| Pacing.RunBatches | Shared/Pacing.hpp:20-42 | After any number of whole batches and any draws the cycles run exceed the grid by at most half a batch and 3 cycles, never fall short. |
| Runner.BatchesTogether | Shared/EmulationRunner.cpp:129-171 | In every run, between two batches of one loop there are only batches of it and jobs that callbacks run inline, if a mark stood at the head of the queue at the first of them. |
| Runner.JobsBetween | Shared/EmulationRunner.cpp:129-176 | In every run, a job leaves the queue and runs between two batches of one loop if and only if the first ran with a job at the head and the head is another at the second. |
| Runner.AheadOfJob | Shared/EmulationRunner.cpp:38-48 | Each batch belongs to exactly one start; it runs with a job at the head of the queue if and only if that start found the job there and nothing has left the queue since, and such a start was made by a callback amid a pump's batches. |
| Runner.JobsBeforeLoop | Shared/EmulationRunner.cpp:38-56 | Every job posted before a start ran before a batch of its loop that is in its place, if and only if the start found no job in the queue behind an older loop's mark. |
| Runner.RestartBehindJob | Shared/EmulationRunner.cpp:38-176 | A callback that stops, drains, posts a job and starts makes the loop run on ahead of the job, which then runs between two of the loop's batches. |
| Runner.JobsAroundLoop | Shared/EmulationRunner.cpp:129-147 | In every run, a job ran before a batch if and only if it was posted before the entry at the head of the queue just then, which is never later than the loop's own mark; so a job posted after a start never runs before its batches. |
| Runner.PopIndex | Shared/EmulationRunner.cpp:129-147 | In every run, the n-th entry to leave the queue is the n-th that was posted, a job by running, a mark by its loop being over, so each leaves once. |
| Runner.EmulationRunner.DoStart | Shared/EmulationRunner.cpp:38-48 | A start is a no-op while running; else its mark is queued, the start is noted with the head it found, and the schedule and the pace start over. |
| Runner.EmulationRunner.DoSync | Shared/EmulationRunner.cpp:58-63 | The queued jobs run first unless a drain is already on, and every account is kept. |
| Runner.EmulationRunner.DrainJobs | Shared/EmulationRunner.cpp:129-147 | Ends with an empty queue or at the mark of a running loop, so no stale mark blocks it; posted jobs run once, in order. |
| Runner.EmulationRunner.RunDue | Shared/EmulationRunner.cpp:159-173 | Unless a callback restarts the loop, at most six batches at regular speed; the deadline stands on the grid, later than now by at most 20 ms; restarted after batch `from`, from + now / 20 ms + 1 batches, on the grid of time 0. |
| Runner.EmulationRunner.RunOneBatch | Shared/EmulationRunner.cpp:91-105 | A batch that was not stopped goes unpaced exactly at full speed, when it neither ends in the idle loop nor polled the hardware. |
| Runner.EmulationRunner.Pump | Shared/EmulationRunner.cpp:151-176 | The queue order is kept through both drains; an active loop at regular speed ends with its deadline in (now, now + 20 ms] after at most six batches, or, restarted last after batch `from`, after from + now / 20 ms + 1; the first batch is the loop's at hand. |
| Runner.RestartInCallback | Shared/EmulationRunner.cpp:38-48 | A callback that stops and starts the loop makes one pump run now / 20 ms + 2 batches, so the bound of six needs that none does. |
| Utf8.ValidIsEncoded | Shared/TextUtil.hpp:128-147 | Valid texts are exactly the concatenations of encodings of Unicode scalar values (sections 3 and 4 of RFC 3629), each of one list only. |
| Utf8.IsValidUtf8 | Shared/TextUtil.hpp:128-147 | The validator's loop returns true exactly on such concatenations. |
| Utf8.FirstEncodes | Shared/TextUtil.hpp:131-144 | A character that is accepted is the shortest encoding of its scalar value. |
| Spaces.SpaceIsEncoded | Shared/TextUtil.hpp:32-44 | White space at a place is exactly the UTF-8 encoding of a tab or of a code point of category Zs there, with its length, if and only if no character is cut short. |
| Spaces.CutShortCountsPastTheEnd | Shared/TextUtil.hpp:40 | A text that ends after the first two bytes of U+2000 to U+200A: the space counts three bytes, one more than there are. |
| TextUtil.SplitJoin | Shared/TextUtil.hpp:19-30 | Joined pieces without separators split into the pieces again. |
| TextUtil.SplitIntoLines | Shared/TextUtil.hpp:19-30 | The loop gives the text between newline characters of either kind, empty pieces kept. |
| TextUtil.SplitIntoWords | Shared/TextUtil.hpp:150-160 | The loop gives the non-empty pieces between single spaces. |
| TextUtil.TrimText | Shared/TextUtil.hpp:54-59 | Both loops together trim every Unicode space separator and tab off both ends. |
| TextUtil.ParseHexText | Shared/TextUtil.hpp:180-190 | The loop reads a whole hexadecimal number of at most eight digits, or refuses. |
| TextUtil.ParseDecText | Shared/TextUtil.hpp:193-203 | The loop reads a whole signed decimal number of at most eighteen digits, or refuses. |
| TextUtil.Hex2Parses | Shared/CardFile.cpp:13-17 | A byte's two printed digits parse to the byte, in either case of letters. |
| Bcd.EncodeLine | Shared/Bcd.cpp:67-74 | The loop fills the register line: nibble pairs swapped, bytes reversed. |
| Bcd.DecodeLine | Shared/Bcd.cpp:106-113 | The loop takes a register line apart again. |
| Bcd.ParseLine | Shared/Bcd.cpp:87-97 | The loop reads exactly eight hexadecimal bytes, or refuses. |
| Bcd.LinesInvert | Shared/Bcd.cpp:67-113 | Register lines and nibble arrays are in bijection. |
| Bcd.RegisterTextInverts | Shared/Bcd.cpp:76-97 | A register's hexadecimal text parses and decodes to the register. |
| Bcd.EncodeLiteral | Shared/Bcd.cpp:20-41 | The loops encode an integer literal digit by digit and hand anything else to the double path. |
| Bcd.DigitsAreValid | Shared/Bcd.cpp:31-40 | All digits are decimal and the first is not zero, for up to 100 significant digits, then again in each window of 100 every 2560 digits, and for no other length: the exponent starts over at 2560. |
| Bcd.IntegerReadsBack | Core/TI59Machine.cpp:320-344 | A signed integer of L significant digits, read back over the reals, has the same sign and the same value for L <= 13, and falls short by less than 10^(L-13) beyond, if and only if L <= 2560; up to there the digits are valid exactly for L <= 100. |
| CardText.AppendSideLines | Shared/CardFile.cpp:52-83 | The loops print a side's header and its thirty rows, bytes reversed through the register line. |
| CardText.WriteDocument | Shared/CardFile.cpp:293-311 | The loop prints the magic line, the cue card, the sides present and END-CARD. |
| CardText.ReadDocument | Shared/CardFile.cpp:147-203 | The parser's loop is the line-by-line reading, stopped at END-CARD. |
| CardText.DecodeFile | Shared/CardFile.cpp:374-409 | Text, headed binary and bare binary are told apart, with the error of each. |
| CardText.RowUnpacks | Shared/CardFile.cpp:36-49 | A printed row unpacks to its eight bank bytes. |
| CardText.DocumentRead | Shared/CardFile.cpp:147-203 | Reading the printed lines of a canonical card gives the card. |
| CardText.CardTextRoundTrip | Shared/CardFile.cpp:293-392 | decodeCardFile(encodeCardDocument(d)) = d for every version 2 card without a cue card whose present sides are canonical. |
| CardAccepted.AcceptedIsComplete | Shared/CardFile.cpp:95-203 | Any accepted version 2 text has, for each side it holds, a SIDE line, all five header keys and exactly thirty rows before the next SIDE or END-CARD, and the side's bytes are canonical. |
| CardAccepted.FittedCard.WriteSide | Shared/SessionController.cpp:554-582 | Saved exactly when the file could be read, decoded and written; then the file's card with that side replaced; else nothing changes. |
| CardSides.AnyRoundTrip | Shared/CardFile.cpp:293-392 | Whatever 246-byte banks a version 2 card without a cue card holds, its text decodes exactly when each page byte's low nibble is at most 11, to the banks in the form a header can say; so it is the card itself exactly when they are canonical. |
| CardAccepted.OtherSideKept | Shared/SessionController.cpp:554-582 | Whatever version 2 text without a cue card the file held and whatever 246 bytes are written to one side, the file decodes with its other side as it was if and only if the low nibble of the third byte written is at most 11; otherwise the whole file is refused. |
| CardAccepted.PassKeepsOtherSide | Core/TMC0501.cpp:715-735 | Behind a write pass: the reader ejects a full bank exactly when the third byte sent names one, and writing what it ejected keeps the file's other side. |
| CardBank.Machine.KeyIn | Core/TI59Machine.cpp:89-107 | Keying in steps, then registers, in place, gives the RAM the specification gives. |
| CardBank.StepReadsBack | Core/TI59Machine.cpp:372-381 | A stored step reads back; every other step is as it was. |
| CardBank.NothingDropped | Shared/StateFile.cpp:203-237 | After a block is finished every listed step and register has an index 0 to 29 in its bank. |
| CardBank.FillWindow | Shared/CardFile.cpp:339-356 | The bank's thirty registers are those of the RAM the whole card leaves on a cleared calculator. |
| CardBank.BuildCardBank | Shared/CardFile.cpp:339-372 | The image: header bytes from bank, partition and protection; rows that are the register lines of that RAM; the nibble sum mod 16 twice. |
| CardBank.ImageIsRam | Shared/CardFile.cpp:365-369 | Every row of the image decodes to the RAM register of its place. |
| CardBank.ImageIsCanonical | Shared/CardFile.cpp:356-371 | The image is canonical for the card text, its page byte names its bank, and a reader pass accepts it. |
| CardBank.ImageSurvivesFile | Shared/CardFile.cpp:293-372 | A card built from a block and saved comes back from its file. |
| StateFile.ReadPartition | Shared/StateFile.cpp:156-164 | The loop rounds up to whole groups of 80 steps, 80 to 960. |
| StateFile.RoundedUp | Shared/StateFile.cpp:156-164 | The result is the smallest such group boundary that holds the steps. |
| StateFile.ReadStateFile | Shared/StateFile.cpp:332-543 | The parser's loop is the line-by-line section machine, then the attaching of cards. |
| PresetText.PresetReads | Shared/StateFile.cpp:332-543 | A preset written out, cards' blocks, directives, initial load, keystrokes and reload stages, parses to what it says: every section in the load, stage or card it was written for, codes at consecutive steps, a card's from its bank's first step on, each stage reloaded where it stands among the keystrokes, and each directive with the card it names. |
| PresetText.CardReads | Shared/StateFile.cpp:397-448 | The block of a card whose steps and registers are of its bank defines exactly that card and complains of nothing. |
| PresetText.StageReads | Shared/StateFile.cpp:357-368 | The first section after the keystrokes opens a reload stage of its own, from step 0 on, played in turn. |
| ProgramListing.ListingLands | Shared/StateFile.cpp:483-491 | A listing of two-digit codes in a PROGRAM section, in a card, a stage or the initial load: the codes land at consecutive steps, in order, each once, and nothing else of the parse changes. |
| ProgramListing.PlacedLands | Shared/StateFile.cpp:483-491 | A line that names its step puts its code there, and the program goes on after it. |
| CardBlocks.BlockAdds | Shared/StateFile.cpp:397-448 | Wherever it stands outside another, a well-formed CARD block adds its card, its complaints and the reader flag and restores section and step; nothing else changes. |
| CardBlocks.BlockLeavesTheRest | Shared/StateFile.cpp:346-368 | Put between any two lines outside a card, a block leaves the parse result as it was but for card definitions, cards on events, the reader flag and the complaints. |
| CardBlocks.BlockMayMove | Shared/StateFile.cpp:536-541 | Before or after lines that touch no block, the whole result is the same, cards on events included, but for the order of complaints. |
| CardBlocks.LineAlike | Shared/StateFile.cpp:370-531 | What a line does to the parse depends on nothing but the parse without its cards and complaints. |
| KeyNames.ArgumentSteps | Shared/KeyNames.cpp:95-120 | The loop gives exactly the steps the walk marks, all of them steps of the program, on any bytes. |
| KeyNames.OperandsFollowGrammar | Shared/KeyNames.cpp:33-120 | On the bytes of any well-formed program of named keys the marked steps are exactly the numeric operands. |
| KeyNames.BareTakesNothing | Shared/KeyNames.cpp:33-57 | The walk's tables list exactly the codes of the keys that take operands. |
| KeyNames.IndirectFixMisread | Shared/KeyNames.cpp:40-52 | After FIX IND and STF IND, whatever follows, IND's step is marked and the register's is not: the register number is read as an opcode. |
| KeyNames.WalkStaysInside | Shared/KeyNames.cpp:58-82 | On any bytes only steps after the opcode and inside the program are marked. |
| KeyNames.LabelSkippedExactly | Shared/KeyNames.cpp:95-120 | A label definition is walked over harmlessly if and only if its key is none of those that take an operand and is not INV. |
| KeyNames.OperandLabelMisread | Shared/KeyNames.cpp:111-115 | After LBL and a key that takes an operand the next step is marked though it is an opcode. |

## Left out

- Display: segment capture, zero suppression, indicator duty cycles, elapsed ticks and `postOperation` are not modelled; they read the state and change nothing the proofs speak of; the display state a trace frame carries is an input.
- The polled-hardware bit of `step()` and the step-boundary snapshot: both are arbitrary in the pacing model; `runDebugInjectedProgram` is not modelled.
- Processor.Tmc0501: `reset` and the key and printer switches are modelled on values only; the CPU's own scalar fields stand in one record field.
- Tables (constant ROM, glyphs, mnemonics, disassembly): parameters.
- Counter wrap past 2^32 of frame numbers and ring cursors: they are natural numbers here.
- Threads, mutexes and condition variables: the cooperative forms are modelled; a cancel may come in at any look, posts only between steps.
- The same physical key pressed again within 100 ms: keyboard statements are about matched presses and releases, not about the level of the key's line.
- TraceSession.ProducedIsLoaded: for frame numbers below 2^32, the width the file gives them; an opening time is any 64-bit number.
- KeySequencer.NothingLost: for lanes never cancelled; what a cancelled lane carried out is stated by the account every operation keeps.
- TraceSession.LoadedIsTheStep: the CPU's own steps and fetch phases; a key press, a card or a reset between two steps changes the state outside them. SCOM is in the ring's frames but not in the file.
- PeripheralEffects.R5ToKeyDoes: for R5 below 16, the nibble it is a register of.
- AluEffects.ShiftsDo: decimal fields without a constant; what a shift does elsewhere is stated digit by digit (AluEffects.ComputeDoes).
- PresetText.PresetReads: sections of a load in the order partition, program, registers, cue card, each once, and cards first, under different keys; `CardBlocks.BlockMayMove` says that blocks may stand elsewhere.
- INV FIX, FIX IND and STF IND as the calculator takes them: the operand grammar is the walk's, where each of these keys takes one step.
- Debug log texts, file-system and platform calls, cue-card contents (carried as lines), version 1 card text (a parameter), and the trace numbers and validity windows the trace reader adds to its records.
- Bcd.IntegerReadsBack: integer literals only; other literals go through the C library's double formatting, a parameter here.
- A text cut inside the encoding of a space, which valid UTF-8 excludes: trimming it ends at the text's end, where the original would throw.
- `parseRegLine`, `parseKeystrokeLine` and the other readers of single register and keystroke lines of presets, and model names: parameters of the section machine; error messages are kept as kinds, not as texts.
- Applying a parsed preset to a machine beyond program steps and data registers: start-up, partition and reload timing.
- The TI-58C's extra registers in card blocks: a card never lists them.
