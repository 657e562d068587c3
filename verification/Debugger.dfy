/**
 Debugger transparency. beginNextStep may be called any number of times between steps;
 the sequence of states the steps produce does not depend on it.
 */
module Debugger {
  import opened Words
  import opened Core
  import opened Execution
  import opened Runs

  /** The two ways the running loop and the debugger touch the CPU's own state. */
  datatype Act = Stepped | Begun

  function Play(chip: Chip, s: State, act: Act): State {
    if act.Stepped? then Step(chip, s) else Begin(chip, s)
  }

  function PlayAll(chip: Chip, s: State, acts: seq<Act>): State {
    Fold((t, act) => Play(chip, t, act), s, acts)
  }

  function StepsIn(acts: seq<Act>): nat {
    if acts == [] then 0 else (if acts[0].Stepped? then 1 else 0) + StepsIn(acts[1..])
  }

  lemma BeginIdempotent(chip: Chip, s: State)
    ensures Begin(chip, Begin(chip, s)) == Begin(chip, s)
  {
  }

  /** The printer countdown and COND's auto-restore do not interfere. */
  lemma BeginThenCountdown(chip: Chip, s: State)
    ensures Begin(chip, Countdown(Begin(chip, s))) == Begin(chip, Countdown(s))
  {
    hide CountedDown;
  }

  /** A step does not see whether its fetch phase already ran. */
  lemma BeginThenStep(chip: Chip, s: State)
    ensures Step(chip, Begin(chip, s)) == Step(chip, s)
  {
    hide Perform, Begin, Countdown;
    BeginThenCountdown(chip, s);
  }

  lemma {:induction false} PlayedIs(chip: Chip, s: State, t: State, acts: seq<Act>)
    requires Begin(chip, s) == Begin(chip, t)
    ensures Begin(chip, PlayAll(chip, s, acts)) == Begin(chip, PlayAll(chip, t, seq(StepsIn(acts), _ => Stepped)))
    ensures acts != [] && acts[|acts| - 1].Stepped? ==>
              PlayAll(chip, s, acts) == PlayAll(chip, t, seq(StepsIn(acts), _ => Stepped))
    decreases |acts|
  {
    hide Step, Begin;
    if acts != [] {
      var rest := acts[1..];
      if acts[0].Stepped? {
        SameStep(chip, s, t);
        PlayedIs(chip, Step(chip, s), Step(chip, t), rest);
        var all := seq(StepsIn(acts), _ => Stepped);
        assert all[1..] == seq(StepsIn(rest), _ => Stepped);
        if rest == [] {
          assert all[1..] == [];
        }
      } else {
        BeginIdempotent(chip, s);
        PlayedIs(chip, Begin(chip, s), t, rest);
      }
    }
  }

  lemma SameStep(chip: Chip, s: State, t: State)
    requires Begin(chip, s) == Begin(chip, t)
    ensures Step(chip, s) == Step(chip, t)
  {
    hide Step, Begin;
    BeginThenStep(chip, s);
    BeginThenStep(chip, t);
  }

  lemma {:induction false} StepsArePlayed(chip: Chip, s: State, n: nat)
    ensures PlayAll(chip, s, seq(n, _ => Stepped)) == Steps(chip, s, n)
  {
    hide Step;
    if n > 0 {
      StepsArePlayed(chip, s, n - 1);
      var f := (t, act) => Play(chip, t, act);
      assert seq(n, _ => Stepped) == seq(n - 1, _ => Stepped) + [Stepped];
      FoldAppend(f, s, seq(n - 1, _ => Stepped), [Stepped]);
      FoldOne(f, Steps(chip, s, n - 1), Stepped);
    }
  }

  /**
   Two runs with the same number of steps, one with extra beginNextStep calls anywhere:
   the state after every step is the same, and between steps the two differ at most by
   the fetch phase itself.
   */
  lemma ExtraBeginsAreInvisible(chip: Chip, s: State, acts: seq<Act>)
    ensures Begin(chip, PlayAll(chip, s, acts)) == Begin(chip, Steps(chip, s, StepsIn(acts)))
    ensures acts != [] && acts[|acts| - 1].Stepped? ==> PlayAll(chip, s, acts) == Steps(chip, s, StepsIn(acts))
  {
    hide Step, Begin;
    PlayedIs(chip, s, s, acts);
    StepsArePlayed(chip, s, StepsIn(acts));
  }
}
