/** Runs of the CPU: steps from ROM, and the same runs given by what each fetch returned. */
module Execution {
  import opened Core
  import opened Runs

  /** One step whose fetch returned `opcode`. */
  function Exec(chip: Chip, s: State, opcode: bv16): State {
    Perform(chip, Restore(Countdown(s), opcode), opcode)
  }

  function Executor(chip: Chip): (State, bv16) -> State {
    (s, opcode) => Exec(chip, s, opcode)
  }

  function Run(chip: Chip, s: State, ops: seq<bv16>): State {
    Fold(Executor(chip), s, ops)
  }

  /** n steps with nothing in between. */
  function Steps(chip: Chip, s: State, n: nat): State {
    if n == 0 then s else Stepper(chip)(Steps(chip, s, n - 1))
  }

  function Stepper(chip: Chip): State -> State {
    s => Step(chip, s)
  }

  /** What n steps fetch. */
  function Fetched(chip: Chip, s: State, n: nat): seq<bv16> {
    if n == 0 then [] else Fetched(chip, s, n - 1) + [chip.rom(Steps(chip, s, n - 1).addr)]
  }

  lemma StepIsExec(chip: Chip, s: State)
    ensures Step(chip, s) == Exec(chip, s, chip.rom(s.addr))
  {
    hide Perform, Restore, CountedDown;
    var op := chip.rom(s.addr);
    RestoreKeepsAddr(Countdown(s), op);
  }

  lemma RestoreKeepsAddr(s: State, op: bv16)
    ensures Restore(s, op).addr == s.addr
  {
    hide IsBranch;
  }

  /** Every run from ROM is the run of what it fetched, so theorems about all opcode sequences cover it. */
  lemma {:induction false} StepsAreARun(chip: Chip, s: State, n: nat)
    ensures Steps(chip, s, n) == Run(chip, s, Fetched(chip, s, n))
    decreases n
  {
    hide Step, Exec;
    if n > 0 {
      var op := chip.rom(Steps(chip, s, n - 1).addr);
      StepsAreARun(chip, s, n - 1);
      StepIsExec(chip, Steps(chip, s, n - 1));
      FoldAppend(Executor(chip), s, Fetched(chip, s, n - 1), [op]);
      FoldOne(Executor(chip), Steps(chip, s, n - 1), op);
    }
  }
}
