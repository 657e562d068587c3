/**
 Real-time pacing. A batch runs weighted cycles up to a jittered target and carries its
 overshoot into the next; over any number of batches the rate never drifts.
 */
module Pacing {
  import Core

  // ---------------------------------------------------------------- targets

  function ResonatorHz(v: Core.Variant): real {
    match v
    case TI59 => 455000.0
    case TI58 => 384000.0
    case TI58C => 394000.0
  }

  function InstructionHz(v: Core.Variant): real { ResonatorHz(v) / 32.0 }

  /** Weighted cycles in 20 ms, the fraction dropped. */
  function BatchTarget(v: Core.Variant): int { (InstructionHz(v) * 0.02).Floor }

  lemma Targets()
    ensures BatchTarget(Core.TI59) == 284 && BatchTarget(Core.TI58) == 240 && BatchTarget(Core.TI58C) == 246
  {
    assert InstructionHz(Core.TI59) * 0.02 == 284.375;
    assert InstructionHz(Core.TI58) * 0.02 == 240.0;
    assert InstructionHz(Core.TI58C) * 0.02 == 246.25;
  }

  // ---------------------------------------------------------------- one batch

  datatype Owner = CpuPanel | CalculatorPanel

  /** What one step of the machine reports, and the armed freeze that fires after it. */
  datatype StepResult = StepResult(weight: int, breakpoint: bool, polled: bool, idle: bool, freeze: bool, owner: Owner)

  predicate WeightOk(r: StepResult) { r.weight == 1 || r.weight == 4 }

  /** Idle steps weigh 4 but on the TI-58C. */
  lemma CoreWeights(chip: Core.Chip, s: Core.State, r: StepResult)
    requires r.weight == Core.Weight(chip, s)
    ensures WeightOk(r)
  {
  }

  /** Everything the machine will do, step by step. */
  type Machine = nat -> StepResult

  ghost predicate Steady(machine: Machine) {
    forall n :: WeightOk(machine(n))
  }

  datatype Stop = NoStop | AtBreakpoint | AtFreeze(owner: Owner)

  /** Weighted cycles of steps from..end. */
  function Cycles(machine: Machine, from: nat, end: nat): int
    requires from <= end
    decreases end
  {
    if from == end then 0 else Cycles(machine, from, end - 1) + machine(end - 1).weight
  }

  predicate Halts(r: StepResult) { r.breakpoint || r.freeze }

  /**
   Steps from..end are a batch for `target` cycles starting from `carry`: it ends with the first
   step that halts or reaches the target. A breakpoint's own cycles are not counted.
   */
  ghost predicate IsBatch(machine: Machine, from: nat, end: nat, carry: int, target: int, stop: Stop)
  {
    && from <= end
    && (forall n :: from <= n < end - 1 ==> !Halts(machine(n)))
    && (forall n :: from <= n < end ==> carry + Cycles(machine, from, n) < target)
    && match stop
       case NoStop => carry + Cycles(machine, from, end) >= target && (from < end ==> !Halts(machine(end - 1)))
       case AtBreakpoint => from < end && machine(end - 1).breakpoint
       case AtFreeze(owner) =>
         from < end && !machine(end - 1).breakpoint && machine(end - 1).freeze && owner == machine(end - 1).owner
  }

  /** The carry a batch leaves: what it ran past the target, or all it ran when it stopped early. */
  function CarryAfter(machine: Machine, from: nat, end: nat, carry: int, target: int, stop: Stop): int
    requires from <= end && (stop.AtBreakpoint? ==> from < end)
  {
    match stop
    case NoStop => carry + Cycles(machine, from, end) - target
    case AtBreakpoint => carry + Cycles(machine, from, end - 1)
    case AtFreeze(_) => carry + Cycles(machine, from, end)
  }

  ghost predicate Polled(machine: Machine, from: nat, end: nat) {
    exists n :: from <= n < end && machine(n).polled && !machine(n).breakpoint
  }

  lemma OneMoreStep(machine: Machine, from: nat, end: nat)
    requires from <= end
    ensures Cycles(machine, from, end + 1) == Cycles(machine, from, end) + machine(end).weight
    ensures Polled(machine, from, end + 1) <==> Polled(machine, from, end) || (machine(end).polled && !machine(end).breakpoint)
  {
  }

  /** No step of from..end halted, and each began below the target. */
  ghost predicate Unhalted(machine: Machine, from: nat, end: nat, carry: int, target: int) {
    from <= end && forall n :: from <= n < end ==> !Halts(machine(n)) && carry + Cycles(machine, from, n) < target
  }

  lemma StillUnhalted(machine: Machine, from: nat, end: nat, carry: int, target: int)
    requires Unhalted(machine, from, end, carry, target)
    requires !Halts(machine(end)) && carry + Cycles(machine, from, end) < target
    ensures Unhalted(machine, from, end + 1, carry, target)
  {
    hide Cycles;
    forall n | from <= n < end + 1 ensures !Halts(machine(n)) && carry + Cycles(machine, from, n) < target {
      if n == end {
        assert !Halts(machine(end));
      }
    }
  }

  lemma BatchEnds(machine: Machine, from: nat, end: nat, carry: int, target: int, stop: Stop)
    requires from <= end && match stop
             case NoStop => Unhalted(machine, from, end, carry, target) && carry + Cycles(machine, from, end) >= target
             case AtBreakpoint => from < end && Unhalted(machine, from, end - 1, carry, target) &&
                                  carry + Cycles(machine, from, end - 1) < target && machine(end - 1).breakpoint
             case AtFreeze(owner) => from < end && Unhalted(machine, from, end - 1, carry, target) &&
                                     carry + Cycles(machine, from, end - 1) < target && machine(end - 1).freeze &&
                                     !machine(end - 1).breakpoint && owner == machine(end - 1).owner
    ensures IsBatch(machine, from, end, carry, target, stop)
  {
    hide Cycles;
  }

  method RunBatch(machine: Machine, from: nat, carry: int, target: int)
    returns (stop: Stop, polled: bool, left: int, end: nat)
    requires Steady(machine)
    ensures IsBatch(machine, from, end, carry, target, stop)
    ensures left == CarryAfter(machine, from, end, carry, target, stop)
    ensures polled <==> Polled(machine, from, end)
  {
    hide Polled, IsBatch, Unhalted;
    assert Unhalted(machine, from, from, carry, target) by { NothingRun(machine, from, carry, target); }
    stop, polled, left, end := NoStop, false, carry, from;
    assert !Polled(machine, from, from) by { NothingPolled(machine, from); }
    while left < target
      invariant from <= end && Unhalted(machine, from, end, carry, target) && left == carry + Cycles(machine, from, end)
      invariant polled <==> Polled(machine, from, end)
      decreases target - left
    {
      hide Cycles;
      var r := machine(end);
      assert WeightOk(r);
      OneMoreStep(machine, from, end);
      end := end + 1;
      if r.breakpoint {
        BatchEnds(machine, from, end, carry, target, AtBreakpoint);
        return AtBreakpoint, polled, left, end;
      }
      if r.polled {
        polled := true;
      }
      if !r.freeze {
        StillUnhalted(machine, from, end - 1, carry, target);
      }
      left := left + r.weight;
      if r.freeze {
        BatchEnds(machine, from, end, carry, target, AtFreeze(r.owner));
        return AtFreeze(r.owner), polled, left, end;
      }
    }
    BatchEnds(machine, from, end, carry, target, NoStop);
    left := left - target;
  }

  lemma NothingRun(machine: Machine, from: nat, carry: int, target: int)
    ensures Unhalted(machine, from, from, carry, target)
  {
  }

  lemma NothingPolled(machine: Machine, from: nat)
    ensures !Polled(machine, from, from)
  {
  }

  /** A batch that runs to its target overshoots by at most 3 cycles. */
  lemma OvershootIsSmall(machine: Machine, from: nat, end: nat, carry: int, target: int)
    requires Steady(machine) && carry < target && IsBatch(machine, from, end, carry, target, NoStop)
    ensures 0 <= CarryAfter(machine, from, end, carry, target, NoStop) <= 3
  {
    assert Cycles(machine, from, end) == Cycles(machine, from, end - 1) + machine(end - 1).weight;
    assert WeightOk(machine(end - 1));
  }

  lemma {:induction false} CyclesAdd(machine: Machine, a: nat, b: nat, c: nat)
    requires a <= b <= c
    ensures Cycles(machine, a, c) == Cycles(machine, a, b) + Cycles(machine, b, c)
    decreases c
  {
    if b < c {
      CyclesAdd(machine, a, b, c - 1);
    }
  }

  // ---------------------------------------------------------------- jitter and carry

  /** Where batches end past their grid points: any draws within half a batch. */
  type Draws = nat -> int

  ghost predicate InHalf(draws: Draws, target: int) {
    forall n :: 0 <= draws(n) <= target / 2
  }

  /** The run loop's pace: the jitter's last offset and the carried overshoot. */
  class Pace {
    const target: int
    const machine: Machine
    const draws: Draws
    var drawn: nat
    var stepped: nat
    var last: int
    var carry: int
    /** Batches run to their end since the loop started, and the step it started at. */
    ghost var batches: nat
    ghost var since: nat

    ghost predicate Valid()
      reads this
    {
      target >= 8 && Steady(machine) && InHalf(draws, target) && since <= stepped && 0 <= last <= target / 2
    }

    /** Nothing has drifted: the cycles run are the grid's, the last offset and the overshoot. */
    ghost predicate OnGrid()
      reads this
      requires Valid()
    {
      Cycles(machine, since, stepped) == batches * target + last + carry && 0 <= carry <= 3
    }

    constructor (target: int, machine: Machine, draws: Draws)
      requires target >= 8 && Steady(machine) && InHalf(draws, target)
      ensures Valid() && OnGrid() && batches == 0
      ensures this.target == target && this.machine == machine && this.draws == draws
    {
      this.target, this.machine, this.draws := target, machine, draws;
      drawn, stepped, last, carry, batches, since := 0, 0, 0, 0, 0, 0;
    }

    /** The loop starts at a grid point. */
    method Reset()
      requires Valid()
      modifies this`last, this`carry, this`batches, this`since
      ensures Valid() && OnGrid() && batches == 0 && since == stepped && last == 0 && carry == 0
    {
      last, carry := 0, 0;
      batches, since := 0, stepped;
    }

    /** Weighted cycles for the next batch. */
    method Next() returns (cycles: int)
      requires Valid()
      modifies this`drawn, this`last
      ensures Valid() && last == draws(old(drawn)) && drawn == old(drawn) + 1
      ensures cycles == target + last - old(last) && cycles >= target - target / 2
    {
      var offset := draws(drawn);
      cycles := target + offset - last;
      drawn, last := drawn + 1, offset;
    }

    /** One batch: on the grid before, on the grid after, unless it stopped early. */
    method Batch() returns (stop: Stop, polled: bool)
      requires Valid() && OnGrid()
      modifies this
      ensures Valid() && stepped >= old(stepped) && since == old(since)
      ensures stop == NoStop ==> OnGrid() && batches == old(batches) + 1
      ensures IsBatch(machine, old(stepped), stepped, old(carry), target + last - old(last), stop)
      ensures carry == CarryAfter(machine, old(stepped), stepped, old(carry), target + last - old(last), stop)
      ensures polled <==> Polled(machine, old(stepped), stepped)
    {
      hide IsBatch, Polled, Cycles, InHalf, Steady;
      var cycles := Next();
      var end;
      stop, polled, carry, end := RunBatch(machine, stepped, carry, cycles);
      assert stepped <= end by { BatchGoesOn(machine, stepped, end, old(carry), cycles, stop); }
      if stop == NoStop {
        OvershootIsSmall(machine, stepped, end, old(carry), cycles);
        CyclesAdd(machine, since, stepped, end);
        OneMore(batches, target);
        batches := batches + 1;
      }
      stepped := end;
    }
  }

  lemma OneMore(n: int, target: int)
    ensures (n + 1) * target == n * target + target
  {
  }

  lemma BatchGoesOn(machine: Machine, from: nat, end: nat, carry: int, target: int, stop: Stop)
    requires IsBatch(machine, from, end, carry, target, stop)
    ensures from <= end
  {
  }

  /** n batches in a row, each run to its end, execute n targets, the last offset and at most 3 cycles more. */
  method RunBatches(pace: Pace, n: nat) returns (whole: bool)
    requires pace.Valid() && pace.OnGrid()
    modifies pace
    ensures pace.Valid() && pace.since == old(pace.since)
    ensures whole ==> pace.batches == old(pace.batches) + n && pace.OnGrid()
    ensures whole ==> 0 <= Cycles(pace.machine, pace.since, pace.stepped) - pace.batches * pace.target <= pace.target / 2 + 3
  {
    var i := 0;
    whole := true;
    while i < n && whole
      invariant i <= n && pace.Valid() && pace.since == old(pace.since)
      invariant whole ==> pace.batches == old(pace.batches) + i && pace.OnGrid()
    {
      var stop, polled := pace.Batch();
      i, whole := i + 1, stop == NoStop;
    }
  }
}
