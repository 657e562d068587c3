/**
 The cooperative run loop: a serial queue of jobs whose long-running job is the paced loop,
 marked by an empty entry. Whatever jobs and callbacks do, posted jobs run once each, in the
 order they were posted. A loop's batches all fall at one place in that order, at the mark they
 find at the head of the queue, unless a callback's start found a job there.
 */
module Runner {
  import opened Pacing
  import opened RunLog

  /** Times are in nanoseconds. */
  const BATCH: int := 20_000_000
  const MAX_LAG: int := 100_000_000
  const FULL_SPEED_SLICE: int := 10_000_000

  /** What a job or a callback does to the runner. */
  datatype Act = Post(job: Job) | Start | Stop | Sync(job: Job) | SetFullSpeed(on: bool)

  datatype Job = Job(acts: seq<Act>)

  /** An entry of the queue: a job, or the run loop's mark. Tickets number the entries as they are posted. */
  datatype Entry = Work(ticket: nat, job: Job) | Mark(ticket: nat)

  // ---------------------------------------------------------------- sizes

  function JobSize(j: Job): nat
    decreases j
  {
    1 + ActsSize(j.acts)
  }

  function ActsSize(acts: seq<Act>): nat
    decreases acts
  {
    if acts == [] then 0 else ActSize(acts[0]) + ActsSize(acts[1..])
  }

  function ActSize(a: Act): nat
    decreases a
  {
    match a
    case Post(j) => 1 + JobSize(j)
    case Sync(j) => 1 + JobSize(j)
    case _ => 2
  }

  function EntrySize(e: Entry): nat {
    match e
    case Work(_, j) => JobSize(j)
    case Mark(_) => 1
  }

  function QueueSize(q: seq<Entry>): nat {
    if q == [] then 0 else EntrySize(q[0]) + QueueSize(q[1..])
  }

  lemma {:induction false} Enqueued(q: seq<Entry>, e: Entry)
    ensures QueueSize(q + [e]) == QueueSize(q) + EntrySize(e)
    decreases |q|
  {
    if q == [] {
      assert q + [e] == [e];
    } else {
      Enqueued(q[1..], e);
      assert (q + [e])[1..] == q[1..] + [e];
    }
  }

  // ---------------------------------------------------------------- the queue and its bookkeeping

  /** Tickets in the queue follow on from those that left it. */
  ghost predicate Queued(queue: seq<Entry>, jobs: seq<bool>, served: nat) {
    && |jobs| == served + |queue|
    && forall i :: 0 <= i < |queue| ==> queue[i].ticket == served + i && jobs[served + i] == queue[i].Work?
  }

  lemma QueueGrows(queue: seq<Entry>, jobs: seq<bool>, served: nat, e: Entry)
    requires Queued(queue, jobs, served) && e.ticket == |jobs|
    ensures Queued(queue + [e], jobs + [e.Work?], served)
  {
  }

  lemma QueueShrinks(queue: seq<Entry>, jobs: seq<bool>, served: nat)
    requires Queued(queue, jobs, served) && queue != []
    ensures Queued(queue[1..], jobs, served + 1)
  {
  }

  lemma HeadIs(queue: seq<Entry>, jobs: seq<bool>, served: nat)
    requires Queued(queue, jobs, served) && queue != []
    ensures served < |jobs| && queue[0].ticket == served && jobs[served] == queue[0].Work?
  {
  }

  predicate AtMark(queue: seq<Entry>) { queue != [] && queue[0].Mark? }

  /** Late by more than 100 ms: the schedule starts over. */
  predicate Lagging(deadline: int, now: int) { now - deadline > MAX_LAG }

  datatype BatchEnd = Stopped | Paced | Unpaced

  /** What the callbacks of one batch do: the freeze's, batchDone's and afterBatch's. */
  datatype Turn = Turn(freeze: seq<Act>, done: seq<Act>, after: seq<Act>)

  class EmulationRunner {
    const pace: Pace
    var running: bool
    var fullSpeed: bool
    var queue: seq<Entry>
    var draining: bool
    var deadline: int
    /** The mark of the loop started last, and where its start stands in the log. */
    ghost var loop: nat
    ghost var origin: nat
    ghost var log: seq<Event>
    var posted: nat
    /** Of each ticket given out, whether it was a job's; how many entries left the queue. */
    ghost var jobs: seq<bool>
    ghost var served: nat
    /** How often a start took effect; whether a pump is running batches. */
    ghost var starts: nat
    ghost var pumping: bool
    /** How often full speed was asked for. */
    ghost var speedups: nat
    /** The time of the last pump. */
    ghost var clock: int

    ghost predicate Valid()
      reads this, pace
    {
      && pace.Valid() && (running ==> pace.OnGrid())
      && Queued(queue, jobs, served) && InTurn(log, jobs, served) && posted == |jobs|
      && Told(log, jobs) && LoopsBelow(log, loop + 1) && (running ==> Goes(log, jobs, served, loop, origin))
      && (running && pumping && !draining && !AtMark(queue) ==> Jumped(log, origin, served))
      && clock >= 0 && deadline <= clock + BATCH
    }

    /** Everything only moves forward; only an effective start touches the schedule. */
    twostate predicate Calm()
      reads this
    {
      && starts >= old(starts) && served >= old(served) && old(jobs) <= jobs && old(log) <= log
      && pumping == old(pumping) && clock == old(clock)
      && (starts == old(starts) ==> deadline == old(deadline) && loop == old(loop) && (running ==> old(running)))
      && (starts > old(starts) ==> deadline == 0)
      && speedups >= old(speedups) && (speedups == old(speedups) && !old(fullSpeed) ==> !fullSpeed)
    }

    twostate predicate Unmoved()
      reads this
    {
      Current() == old(Current()) && deadline == old(deadline) && log == old(log) && served == old(served) && loop == old(loop)
      && fullSpeed == old(fullSpeed) && speedups == old(speedups)
    }

    /** What the foreseeable acts of a callback change. */
    ghost function Current(): Status
      reads this`running, this`queue, this`posted, this`starts
    {
      Status(running, queue, posted, starts)
    }

    constructor (pace: Pace)
      requires pace.Valid()
      ensures Valid() && this.pace == pace && Current() == Status(false, [], 0, 0) && log == [] && !draining && !pumping
      ensures clock == 0 && !fullSpeed
    {
      this.pace := pace;
      running, fullSpeed, queue, draining, deadline, loop, origin, log, posted := false, false, [], false, 0, 0, 0, [], 0;
      jobs, served, starts, pumping, speedups, clock := [], 0, 0, false, 0, 0;
    }

    method Enqueue(e: Entry)
      requires Valid() && e.ticket == posted
      modifies this`queue, this`jobs, this`posted
      ensures Valid() && queue == old(queue) + [e] && jobs == old(jobs) + [e.Work?] && posted == old(posted) + 1
      ensures LoopsBelow(log, old(posted)) && QueueSize(queue) == old(QueueSize(queue)) + EntrySize(e)
    {
      hide InTurn, Queued, Told, Goes, Jumped, Pace.Valid, Pace.OnGrid;
      Enqueued(queue, e);
      QueueGrows(queue, jobs, served, e);
      LoopsGiven(log, jobs, served);
      InTurnMore(log, jobs, served, e.Work?);
      TicketsOn(log, jobs, served, e.Work?);
      if running {
        Behind();
        GoesMore(log, jobs, served, loop, origin, e.Work?);
      }
      queue, jobs, posted := queue + [e], jobs + [e.Work?], posted + 1;
    }

    /** While a loop is on, its mark is in the queue. */
    lemma Behind()
      requires Queued(queue, jobs, served) && Goes(log, jobs, served, loop, origin)
      ensures queue != [] && served < |jobs| && queue[0].Work? == IsJob(jobs, served) && queue[0].ticket == served
      ensures queue[0].Mark? ==> !IsJob(jobs, served)
    {
    }

    method DoPost(j: Job)
      requires Valid()
      modifies this`queue, this`jobs, this`posted
      ensures Valid() && Calm() && Current() == AfterAct(Post(j), old(Current()))
      ensures QueueSize(queue) == old(QueueSize(queue)) + JobSize(j)
    {
      hide EmulationRunner.Valid, DrainedQueue, AllIdle;
      Enqueue(Work(posted, j));
    }

    /** A no-op while the loop runs; otherwise its mark is queued and its schedule starts over. */
    method DoStart()
      requires Valid()
      modifies this`running, this`queue, this`jobs, this`posted, this`deadline, this`loop, this`origin, this`log, this`starts, pace
      ensures Valid() && Calm() && Current() == AfterAct(Start, old(Current()))
      ensures !old(running) ==> deadline == 0 && log == old(log) + [Started(old(posted), served, pumping)]
      ensures QueueSize(queue) <= old(QueueSize(queue)) + 1
    {
      hide EmulationRunner.Valid, DrainedQueue, AllIdle;
      if running {
        return;
      }
      Enqueue(Mark(posted));
      Arm();
    }

    method DoStop()
      requires Valid()
      modifies this`running
      ensures Valid() && Calm() && Current() == AfterAct(Stop, old(Current()))
    {
      hide InTurn, Queued, Told, Goes, Jumped, Pace.Valid, Pace.OnGrid, DrainedQueue, AllIdle;
      running := false;
    }

    method DoSetFullSpeed(on: bool)
      requires Valid()
      modifies this`fullSpeed, this`speedups
      ensures Valid() && Calm() && Current() == old(Current())
      ensures fullSpeed == on && speedups == old(speedups) + if on then 1 else 0
    {
      hide InTurn, Queued, Told, Goes, Jumped, Pace.Valid, Pace.OnGrid;
      fullSpeed, speedups := on, if on then speedups + 1 else speedups;
    }

    /** The loop may run: its schedule and its pace start over. */
    method Arm()
      requires Valid() && !running && queue != [] && queue[|queue| - 1] == Mark(posted - 1) && LoopsBelow(log, posted - 1)
      modifies this`running, this`deadline, this`loop, this`origin, this`log, this`starts, pace
      ensures Valid() && running && deadline == 0 && starts == old(starts) + 1
      ensures log == old(log) + [Started(posted - 1, served, pumping)]
    {
      hide InTurn, Told, Goes, Jumped, LoopsBelow, Pace.Valid, Pace.OnGrid;
      assert posted == served + |queue| && jobs[served + |queue| - 1] == queue[|queue| - 1].Work?;
      StartTold(log, jobs, served, pumping);
      loop, origin := posted - 1, |log|;
      log := log + [Started(posted - 1, served, pumping)];
      pace.Reset();
      running, deadline, starts := true, 0, starts + 1;
    }

    /** One thing a job or a callback does. */
    method Do(a: Act)
      requires Valid()
      modifies this, pace
      ensures Valid() && Calm() && draining == old(draining)
      ensures QueueSize(queue) < old(QueueSize(queue)) + ActSize(a)
      ensures !draining && Foreseen(a, old(Current())) ==> Current() == AfterAct(a, old(Current())) && speedups == old(speedups)
      ensures match a
              case SetFullSpeed(on) => fullSpeed == on && Current() == old(Current())
              case Sync(_) => true
              case _ => fullSpeed == old(fullSpeed)
      decreases ActSize(a) + QueueSize(queue), 0
    {
      hide EmulationRunner.Valid, AfterAct, DrainedQueue, AllIdle;
      match a
      case Post(j) => DoPost(j);
      case Start => DoStart();
      case Stop => DoStop();
      case SetFullSpeed(on) => DoSetFullSpeed(on);
      case Sync(j) => DoSync(j);
    }

    /** Runs the queued jobs, unless a drain is doing that already, then the job itself. */
    method DoSync(j: Job)
      requires Valid()
      modifies this, pace
      ensures Valid() && Calm() && draining == old(draining)
      ensures QueueSize(queue) <= old(QueueSize(queue)) + ActsSize(j.acts)
      ensures !draining && Foreseen(Sync(j), old(Current())) ==>
                Current() == AfterAct(Sync(j), old(Current())) && speedups == old(speedups)
      decreases JobSize(j) + QueueSize(queue), 0
    {
      hide EmulationRunner.Valid, AllIdle, DrainedQueue;
      if !draining {
        DrainJobs();
      }
      NoteSync();
      Perform(j.acts);
    }

    /** The job runs inline. */
    ghost method NoteSync()
      requires Valid()
      modifies this`log
      ensures Valid() && log == old(log) + [Synced]
    {
      hide InTurn, Queued, Told, Goes, Pace.Valid, Pace.OnGrid;
      InTurnOn(log, jobs, served, Synced);
      NotOfLoop(log, jobs, Synced, loop + 1);
      if running {
        GoesOn(log, jobs, served, loop, origin, Synced);
      }
      log := log + [Synced];
    }

    method Perform(acts: seq<Act>)
      requires Valid()
      modifies this, pace
      ensures Valid() && Calm() && draining == old(draining)
      ensures QueueSize(queue) <= old(QueueSize(queue)) + ActsSize(acts)
      ensures !draining && AllForeseen(acts, old(Current())) ==>
                Current() == AfterActs(acts, old(Current())) && speedups == old(speedups)
      ensures acts == [] ==> Current() == old(Current()) && speedups == old(speedups)
      decreases ActsSize(acts) + QueueSize(queue), 1
    {
      hide EmulationRunner.Valid, Foreseen, AfterAct;
      if acts != [] {
        Do(acts[0]);
        Perform(acts[1..]);
      }
    }

    /** Queued jobs up to a running loop's mark; the mark of a loop that is over just goes. */
    method DrainJobs()
      requires Valid() && !draining
      modifies this, pace
      ensures Valid() && Calm() && draining == old(draining)
      ensures queue == [] || (running && AtMark(queue))
      ensures old(running && AtMark(queue)) ==> Unmoved()
      ensures old(AllIdle(queue)) ==> Current() == AfterDrain(old(Current())) && speedups == old(speedups)
      ensures QueueSize(queue) <= old(QueueSize(queue))
      decreases QueueSize(queue), 3
    {
      hide InTurn, Queued, Told, Goes, Jumped, AllIdle, DrainedQueue;
      draining := true;
      RunQueued();
      assert running ==> queue != [] by {
        if running {
          Behind();
        }
      }
      draining := false;
    }

    method RunQueued()
      requires Valid() && draining
      modifies this, pace
      ensures Valid() && Calm() && draining
      ensures queue == [] || (running && AtMark(queue))
      ensures old(running && AtMark(queue)) ==> Unmoved()
      ensures old(AllIdle(queue)) ==> Current() == AfterDrain(old(Current())) && speedups == old(speedups)
      ensures QueueSize(queue) <= old(QueueSize(queue))
      decreases QueueSize(queue), 2
    {
      hide EmulationRunner.Valid, AllForeseen, AfterActs;
      while queue != [] && !(AtMark(queue) && running)
        invariant Valid() && Calm() && draining && QueueSize(queue) <= old(QueueSize(queue))
        invariant old(running && AtMark(queue)) ==> Unmoved()
        invariant old(AllIdle(queue)) ==> AllIdle(queue) && AfterDrain(Current()) == AfterDrain(old(Current())) && speedups == old(speedups)
        decreases QueueSize(queue)
      {
        var e := queue[0];
        Pop();
        if e.Work? {
          Perform(e.job.acts);
        }
      }
    }

    /** The head of the queue leaves it: a job to run, or the mark of a loop that is over. */
    method Pop()
      requires Valid() && draining && queue != [] && (AtMark(queue) ==> !running)
      modifies this`queue, this`log, this`served
      ensures Valid() && queue == old(queue)[1..] && served == old(served) + 1
      ensures log == old(log) + [if old(queue)[0].Work? then Ran(old(served)) else LoopOver(old(served))]
    {
      hide InTurn, Queued, Told, Goes, Jumped, LoopsBelow, Pace.Valid, Pace.OnGrid;
      ghost var event := if queue[0].Work? then Ran(served) else LoopOver(served);
      HeadIs(queue, jobs, served);
      RunLog.Served(log, jobs, served);
      NotOfLoop(log, jobs, event, loop + 1);
      if running {
        GoesPast(log, jobs, served, loop, origin, event);
      }
      QueueShrinks(queue, jobs, served);
      queue, log, served := queue[1..], log + [event], served + 1;
    }

    /** The loop's batch happens. */
    ghost method Note()
      requires Valid() && running && pumping && !draining
      modifies this`log
      ensures Valid() && log == old(log) + [Batched(loop, served)] && (!AtMark(queue) ==> IsJob(jobs, served))
    {
      hide InTurn, Queued, Told, Goes, Pace.Valid, Pace.OnGrid;
      Behind();
      BatchTold(log, jobs, served, loop, origin);
      log := log + [Batched(loop, served)];
    }

    /** The last step left the machine in its idle loop. */
    static predicate EndsIdle(p: Pace)
      reads p`stepped
    {
      p.stepped > 0 && p.machine(p.stepped - 1).idle
    }

    /** One batch of the machine; stopped by a breakpoint or an armed freeze, whose callback runs. */
    method RunOneBatch(freeze: seq<Act>) returns (end: BatchEnd)
      requires Valid() && running && pumping && !draining
      modifies this, pace
      ensures Valid() && draining == old(draining) && QueueSize(queue) <= old(QueueSize(queue)) + ActsSize(freeze)
      ensures pumping == old(pumping) && clock == old(clock) && old(jobs) <= jobs
      ensures old(log) + [Batched(old(loop), old(served))] <= log && (old(!AtMark(queue)) ==> IsJob(jobs, old(served)))
      ensures end != Stopped ==> Current() == old(Current()) && running && served == old(served) && deadline == old(deadline) &&
                                 loop == old(loop) && fullSpeed == old(fullSpeed) && speedups == old(speedups)
      // a batch goes unpaced exactly at full speed, when it neither ends in the idle loop nor polled the hardware
      ensures end != Stopped ==>
                (end == Unpaced <==> fullSpeed && !EndsIdle(pace) && !Polled(pace.machine, old(pace.stepped), pace.stepped))
      ensures end == Stopped ==> starts >= old(starts) && speedups >= old(speedups)
      ensures end == Stopped && speedups == old(speedups) && !old(fullSpeed) ==> !fullSpeed
      ensures end == Stopped && starts == old(starts) ==> !running
      ensures end == Stopped ==> exists n :: Halts(pace.machine(n))
    {
      hide EmulationRunner.Valid, InTurn, Queued, Told, Goes, IsBatch, Polled, AllForeseen, AfterActs;
      Note();
      var stop, polled, idle := StepBatch();
      match stop
      case AtBreakpoint =>
        end := Stopped;
      case AtFreeze(_) =>
        Perform(freeze);
        end := Stopped;
      case NoStop =>
        end := if !fullSpeed || idle || polled then Paced else Unpaced;
    }

    /** The machine runs one batch; one that stops early stops the loop. */
    method StepBatch() returns (stop: Stop, polled: bool, idle: bool)
      requires Valid() && running
      modifies this`running, pace
      ensures Valid() && running == (stop == NoStop)
      ensures stop == NoStop ==> pace.batches == old(pace.batches) + 1 && pace.since == old(pace.since)
      ensures stop != NoStop ==> exists n :: Halts(pace.machine(n))
      ensures polled <==> Polled(pace.machine, old(pace.stepped), pace.stepped)
      ensures idle <==> EndsIdle(pace)
    {
      hide InTurn, Queued, Told, Goes, Jumped, IsBatch, Polled, CarryAfter;
      ghost var from, carry, last := pace.stepped, pace.carry, pace.last;
      stop, polled := pace.Batch();
      NoHaltNoStop(pace.machine, from, pace.stepped, carry, pace.target + pace.last - last, stop);
      idle := pace.stepped > 0 && pace.machine(pace.stepped - 1).idle;
      running := stop == NoStop;
    }

    /** One batch, its place in the schedule, and its callbacks. */
    method OneTurn(turn: Turn) returns (end: BatchEnd)
      requires Valid() && running && pumping && !draining && deadline <= clock
      modifies this, pace
      ensures Valid() && pumping && !draining && clock == old(clock) && starts >= old(starts) && old(jobs) <= jobs
      ensures old(log) + [Batched(old(loop), old(served))] <= log && (old(!AtMark(queue)) ==> IsJob(jobs, old(served)))
      ensures starts == old(starts) && end != Stopped ==>
                deadline == old(deadline) + (if end == Paced then BATCH else 0) && loop == old(loop)
      ensures starts > old(starts) && end != Stopped ==> deadline == 0
      ensures speedups >= old(speedups)
      ensures !old(fullSpeed) ==> end != Unpaced && (speedups == old(speedups) ==> !fullSpeed)
      ensures end == Stopped ==> !Unhalting(pace.machine) && (starts == old(starts) ==> !running)
      ensures end != Stopped && turn.done == [] && AllForeseen(turn.after, old(Current())) ==>
                Current() == AfterActs(turn.after, old(Current())) && speedups == old(speedups)
    {
      hide EmulationRunner.Valid, InTurn, Queued, Told, Goes, AllForeseen, AfterActs;
      end := RunOneBatch(turn.freeze);
      if end != Stopped {
        if end == Paced {
          NextDeadline();
        }
        Callbacks(turn.done, turn.after);
      }
    }

    /** batchDone's, then afterBatch's. */
    method Callbacks(done: seq<Act>, after: seq<Act>)
      requires Valid() && running
      modifies this, pace
      ensures Valid() && Calm() && draining == old(draining)
      ensures !draining && done == [] && AllForeseen(after, old(Current())) ==>
                Current() == AfterActs(after, old(Current())) && speedups == old(speedups)
    {
      hide EmulationRunner.Valid, AllForeseen, AfterActs;
      Perform(done);
      Perform(after);
    }

    /** A paced batch is due 20 ms after the one before it. */
    method NextDeadline()
      requires Valid() && deadline <= clock
      modifies this`deadline
      ensures Valid() && deadline == old(deadline) + BATCH
    {
      deadline := deadline + BATCH;
    }

    /**
     The batches due by `now` while the loop runs; at full speed, as many as a slice holds.
     `walls` is the clock that ends a slice, `turns` what the callbacks of each batch do. The
     schedule is a grid: `base` at batch `from`, which is where a callback last restarted it.
     */
    method RunDue(now: int, turns: seq<Turn>, walls: nat -> int)
      returns (count: nat, ghost paced: bool, ghost stopped: bool, ghost base: int, ghost from: nat, asked: nat)
      requires Valid() && running && AtMark(queue) && !draining && !pumping && now == clock
      requires 0 <= now && now - deadline <= MAX_LAG && Rising(walls)
      modifies this, pace
      ensures Valid() && !draining && !pumping && clock == now && starts >= old(starts) && old(jobs) <= jobs
      ensures Ahead(count, old(log), old(loop), old(served))
      ensures speedups >= old(speedups) && (!old(fullSpeed) && speedups == old(speedups) ==> paced)
      ensures old(deadline) <= now ==> count > 0
      ensures running && !stopped && deadline <= now ==> SliceUsed(walls, asked)
      ensures paced && starts == old(starts) ==> count <= 6
      ensures starts == old(starts) ==> base == old(deadline) && from == 0
      ensures stopped && starts == old(starts) ==> !running
      ensures starts > old(starts) ==> 0 < from && base == 0
      ensures paced && running && !stopped ==> from <= count && deadline == base + BATCH * (count - from) && deadline > now
      ensures paced && running && !stopped && count > from ==> deadline <= now + BATCH
      ensures paced && running && !stopped && starts > old(starts) ==> count == from + now / BATCH + 1
      ensures count > 0 && Restarts(turns, old(Current())) && Unhalting(pace.machine) ==>
                Replayed(turns, old(Current()), count) && !stopped && speedups == old(speedups) && from == 1
    {
      hide EmulationRunner.Valid, InTurn, Queued, Told, Goes, Rising, Unhalting, OnSchedule, Restarts, EmulationRunner.Replayed,
           EmulationRunner.Ahead;
      SetPumping(true);
      count, paced, stopped, base, from, asked := BatchLoop(now, turns, walls);
      ScheduleSays(now, old(deadline), paced, running && !stopped, starts > old(starts), deadline, base, from, count);
      SetPumping(false);
    }

    /** The first batch of a pump is the loop's at hand, with nothing run ahead of it. */
    ghost predicate Ahead(count: nat, log0: seq<Event>, loop0: nat, served0: nat)
      reads this`log
    {
      log0 <= log && (count > 0 ==> log0 + [Batched(loop0, served0)] <= log)
    }

    /** The first turn's callbacks have had their effect; if that was to start a loop behind a job, its batch ran before the job. */
    ghost predicate Replayed(turns: seq<Turn>, was: Status, count: nat)
      reads this`running, this`queue, this`posted, this`starts, this`log, this`jobs, this`loop
    {
      && |turns| == 1 && running && Current() == AfterActs(turns[0].after, was)
      && (count > 1 && !AtMark(queue) ==> RanAhead(log, jobs, loop))
    }

    /** One more batch of the loop, in its place in the schedule and in the story of the turns. */
    method LoopTurn(turns: seq<Turn>, count: nat, ghost was: Status) returns (end: BatchEnd)
      requires Valid() && running && pumping && !draining && deadline <= clock
      modifies this, pace
      ensures Valid() && pumping && !draining && clock == old(clock) && starts >= old(starts) && old(jobs) <= jobs
      ensures old(log) + [Batched(old(loop), old(served))] <= log
      ensures starts == old(starts) && end != Stopped ==> deadline == old(deadline) + (if end == Paced then BATCH else 0)
      ensures starts > old(starts) && end != Stopped ==> deadline == 0
      ensures speedups >= old(speedups)
      ensures !old(fullSpeed) ==> end != Unpaced && (speedups == old(speedups) ==> !fullSpeed)
      ensures end == Stopped ==> !Unhalting(pace.machine) && (starts == old(starts) ==> !running)
      ensures end != Stopped && count >= |turns| ==> starts == old(starts)
      ensures end != Stopped && Restarts(turns, was) && (if count == 0 then old(Current()) == was else old(Replayed(turns, was, count))) ==>
                Replayed(turns, was, count + 1) && speedups == old(speedups) && (starts > old(starts) <==> count == 0)
    {
      hide EmulationRunner.Valid, AllForeseen, AfterActs, Unhalting;
      NoActs(Current());
      end := OneTurn(if count < |turns| then turns[count] else Turn([], [], []));
      if count > 0 && !old(AtMark(queue)) {
        assert BatchAhead(log, jobs, old(loop), |old(log)|);
      }
    }

    method BatchLoop(now: int, turns: seq<Turn>, walls: nat -> int)
      returns (count: nat, ghost paced: bool, ghost stopped: bool, ghost base: int, ghost from: nat, asked: nat)
      requires Valid() && running && !draining && pumping && now == clock
      requires now - deadline <= MAX_LAG && Rising(walls)
      modifies this, pace
      ensures Valid() && !draining && clock == now && starts >= old(starts) && old(jobs) <= jobs
      ensures Ahead(count, old(log), old(loop), old(served))
      ensures speedups >= old(speedups) && (!old(fullSpeed) && speedups == old(speedups) ==> paced)
      ensures old(deadline) <= now ==> count > 0
      ensures stopped && starts == old(starts) ==> !running
      ensures paced && running && !stopped ==> deadline > now
      ensures asked > 0 && (running && !stopped && deadline <= now ==> SliceUsed(walls, asked))
      ensures OnSchedule(now, old(deadline), paced, running && !stopped, starts > old(starts), deadline, base, from, count)
      ensures count > 0 && Restarts(turns, old(Current())) && Unhalting(pace.machine) ==>
                Replayed(turns, old(Current()), count) && starts > old(starts) && !stopped && speedups == old(speedups) && from == 1
    {
      hide EmulationRunner.Valid, InTurn, Queued, Told, Goes, QueueSize, ActsSize, Rising, Unhalting, OnSchedule, Restarts,
           EmulationRunner.Replayed, SliceLasts, SliceUsed;
      SliceBegins(walls);
      StartsOnSchedule(now, deadline);
      ghost var was, scenario := Current(), Restarts(turns, Current()) && Unhalting(pace.machine);
      count, paced, stopped, base, from := 0, true, false, deadline, 0;
      var sliceEnd := walls(0) + FULL_SPEED_SLICE;
      asked := 1;
      while running && deadline <= now
        invariant Valid() && pumping && !draining && clock == now && starts >= old(starts) && old(jobs) <= jobs
        invariant Ahead(count, old(log), old(loop), old(served))
        invariant OnSchedule(now, old(deadline), paced, running, starts > old(starts), deadline, base, from, count)
        invariant speedups >= old(speedups) && (!old(fullSpeed) && speedups == old(speedups) ==> paced && !fullSpeed)
        invariant asked > 0 && SliceLasts(walls, asked)
        invariant !stopped && (count == 0 ==> Current() == was && speedups == old(speedups) && deadline == old(deadline))
        invariant count == 0 ==> log == old(log) && loop == old(loop) && served == old(served)
        invariant scenario && count > 0 ==> Replayed(turns, was, count) && speedups == old(speedups) && from == 1 && starts > old(starts)
        decreases if count < |turns| then |turns| - count else 0, Left(now - deadline) + Left(sliceEnd - walls(asked))
      {
        ghost var before, due := starts, deadline;
        var end := LoopTurn(turns, count, was);
        count := count + 1;
        stopped := end == Stopped;
        TurnOnSchedule(now, old(deadline), paced, before > old(starts), due, base, from, count - 1,
                       running && !stopped, end != Unpaced, starts > before, deadline);
        paced := paced && end != Unpaced;
        if starts > before {
          base, from := 0, count;
        }
        if end == Stopped {
          break;
        }
        if end == Unpaced {
          var wall := walls(asked);
          ClockGoesOn(walls, asked);
          SliceGoesOn(walls, asked);
          asked := asked + 1;
          if wall >= sliceEnd {
            AnyDeadline(now, old(deadline), running, starts > old(starts), deadline, base, from, count);
            Resume(now);
            break;
          }
        }
      }
    }

    ghost method SetPumping(on: bool)
      requires Valid() && (on ==> AtMark(queue))
      modifies this`pumping
      ensures Valid() && pumping == on
    {
      hide InTurn, Queued, Told, Goes, Jumped, Pace.Valid, Pace.OnGrid;
      pumping := on;
    }

    /** Full speed: the next pump goes on at once. */
    method Resume(now: int)
      requires Valid() && now == clock
      modifies this`deadline
      ensures Valid() && deadline == now
    {
      deadline := now;
    }

    /** Time goes on; late by more than 100 ms, the schedule starts over. */
    method SetClock(now: int)
      requires Valid() && now >= clock
      modifies this`clock
      ensures Valid() && clock == now >= 0
    {
      clock := now;
    }

    method CatchUp(now: int)
      requires Valid() && now == clock
      modifies this`deadline
      ensures Valid() && deadline == if now - old(deadline) > MAX_LAG then now else old(deadline)
    {
      if Lagging(deadline, now) {
        deadline := now;
      }
    }

    /** The loop's due batches, between two drains of the queue; a story of the batches for its contract. */
    method Pump(now: int, turns: seq<Turn>, walls: nat -> int) returns (count: nat, ghost story: Story)
      requires Valid() && !draining && !pumping && now >= clock && Rising(walls)
      modifies this, pace
      ensures Valid() && !draining && !pumping && clock == now && old(log) <= log && old(jobs) <= jobs
      ensures queue == [] || (running && AtMark(queue))
      ensures count > 0 ==> story.active
      ensures story.active ==> now - story.first <= MAX_LAG && (story.first <= now ==> count > 0)
      ensures starts >= story.starts >= old(starts)
      ensures !old(fullSpeed) && speedups == old(speedups) ==> story.paced
      ensures story.active && story.paced && starts == story.starts ==> count <= 6
      ensures story.active && story.paced && starts == story.starts && running ==>
                now < deadline <= now + BATCH && deadline == story.first + BATCH * count
      // restarted by a callback of batch `from`, last of all, the loop catches up from time 0
      ensures story.active && story.paced && story.again && story.through ==> count == story.from + now / BATCH + 1
      ensures story.active && story.again ==> 0 < story.from
      // batches still due are left over only at the end of a full-speed slice
      ensures story.active && story.through && starts == story.starts && running && deadline <= now ==> SliceUsed(walls, story.asked)
      ensures old(running && AtMark(queue)) ==>
                story.active && story.first == if now - old(deadline) > MAX_LAG then now else old(deadline)
      ensures old(running && AtMark(queue)) && count > 0 ==> old(log) + [Batched(old(loop), old(served))] <= log
      ensures old(running && AtMark(queue)) && count > 0 && Restarts(turns, old(Current())) && Unhalting(pace.machine) && !old(fullSpeed) ==>
                count == now / BATCH + 2 && After(turns, old(Current()))
    {
      hide EmulationRunner.Valid, Restarts, Unhalting, Rising, AllIdle, DrainedQueue, AfterActs, RanAhead;
      SetClock(now);
      DrainJobs();
      count, story := DueBatches(now, turns, walls);
      ghost var log0, jobs0 := log, jobs;
      DrainJobs();
      StillAhead(log0, jobs0, log, jobs, loop);
    }

    /** The batches due, if the loop is at the head of the queue. */
    method DueBatches(now: int, turns: seq<Turn>, walls: nat -> int) returns (count: nat, ghost story: Story)
      requires Valid() && !draining && !pumping && now == clock >= 0 && Rising(walls)
      modifies this, pace
      ensures Valid() && !draining && !pumping && clock == now && old(log) <= log && old(jobs) <= jobs && starts >= old(starts)
      ensures story.active == old(running && AtMark(queue)) && story.starts == old(starts)
      ensures !story.active ==> count == 0 && story.paced && Unmoved()
      ensures story.active ==> now - story.first <= MAX_LAG && (story.first <= now ==> count > 0)
      ensures story.active ==> story.first == if now - old(deadline) > MAX_LAG then now else old(deadline)
      ensures speedups >= old(speedups) && (!old(fullSpeed) && speedups == old(speedups) ==> story.paced)
      ensures story.active && story.paced && starts == story.starts ==> count <= 6
      ensures story.active && story.paced && starts == story.starts && running ==>
                now < deadline <= now + BATCH && deadline == story.first + BATCH * count
      ensures story.active && story.paced && story.again && story.through ==> count == story.from + now / BATCH + 1
      ensures story.active && story.again ==> 0 < story.from
      ensures story.active && story.through && deadline <= now ==> SliceUsed(walls, story.asked)
      ensures count > 0 ==> old(log) + [Batched(old(loop), old(served))] <= log
      ensures count > 0 && Restarts(turns, old(Current())) && Unhalting(pace.machine) && !old(fullSpeed) ==>
                count == now / BATCH + 2 && Replayed(turns, old(Current()), count) && speedups == old(speedups)
    {
      hide EmulationRunner.Valid, Restarts, Unhalting, Rising, EmulationRunner.Replayed;
      count, story := 0, Story(false, true, starts, deadline, false, 0, false, 0);
      if running && AtMark(queue) {
        CatchUp(now);
        story := story.(active := true, starts := starts, first := deadline);
        ghost var paced, stopped, base, from;
        var asked;
        count, paced, stopped, base, from, asked := RunDue(now, turns, walls);
        story := story.(asked := asked, paced := paced, again := starts > story.starts, from := from, through := running && !stopped);
        StillRuns(turns, old(Current()), count);
      }
    }

    lemma StillRuns(turns: seq<Turn>, was: Status, count: nat)
      ensures Replayed(turns, was, count) ==> running
    {
    }

    /** After a pump whose first callbacks restarted the loop, with idle jobs only in the queue. */
    ghost predicate After(turns: seq<Turn>, was: Status)
      reads this`running, this`queue, this`posted, this`starts, this`log, this`jobs, this`loop
    {
      |turns| == 1 && var v := AfterActs(turns[0].after, was);
        AllIdle(v.queue) ==>
          Current() == AfterDrain(v) && (!AtMark(v.queue) && v.queue != [] ==> RanAhead(log, jobs, loop))
    }
  }

  /**
   Of a pump: whether the loop ran, whether at regular speed throughout, the starts and the deadline
   it began with; whether a callback restarted the loop, after which batch last, whether the loop was
   still running when its batches ended, and how often the clock was read for the slice.
   */
  datatype Story = Story(active: bool, paced: bool, starts: nat, first: int, again: bool, from: nat, through: bool, asked: nat)

  /** The callbacks of the first batch, all foreseeable, leave the loop running and started again. */
  ghost predicate Restarts(turns: seq<Turn>, was: Status) {
    && |turns| == 1 && turns[0].done == [] && AllForeseen(turns[0].after, was)
    && AfterActs(turns[0].after, was).running && AfterActs(turns[0].after, was).starts > was.starts
  }

  /** A batch of the loop that ran with a job at the head of the queue. */
  predicate BatchAhead(log: seq<Event>, jobs: seq<bool>, loop: nat, i: nat) {
    i < |log| && log[i].Batched? && log[i].loop == loop && IsJob(jobs, log[i].head)
  }

  ghost predicate RanAhead(log: seq<Event>, jobs: seq<bool>, loop: nat) {
    exists i :: BatchAhead(log, jobs, loop, i)
  }

  lemma StillAhead(log: seq<Event>, jobs: seq<bool>, log': seq<Event>, jobs': seq<bool>, loop: nat)
    requires log <= log' && jobs <= jobs'
    ensures RanAhead(log, jobs, loop) ==> RanAhead(log', jobs', loop)
  {
    if i :| BatchAhead(log, jobs, loop, i) {
      assert BatchAhead(log', jobs', loop, i);
    }
  }

  lemma ClockGoesOn(walls: nat -> int, n: nat)
    requires Rising(walls)
    ensures walls(n) < walls(n + 1)
  {
  }

  /**
   Where the loop stands `count` batches into a pump: on the grid it began with, or, `again`, on
   the one a callback's restart began at batch `from`.
   */
  predicate OnSchedule(now: int, first: int, paced: bool, running: bool, again: bool, deadline: int,
                       base: int, from: nat, count: nat)
  {
    && from <= count && (if again then from > 0 && base == 0 else from == 0 && base == first)
    && (paced && running ==> deadline == base + BATCH * (count - from))
    && (paced && running && count > from ==> deadline <= now + BATCH)
    && (paced && !again ==> count <= 6 && (count > 0 ==> base + BATCH * (count - 1) <= now))
  }

  lemma StartsOnSchedule(now: int, deadline: int)
    ensures OnSchedule(now, deadline, true, true, false, deadline, deadline, 0, 0)
  {
  }

  /** A batch that was due, and what its callbacks did to the schedule. */
  lemma TurnOnSchedule(now: int, first: int, paced: bool, again: bool, deadline: int, base: int, from: nat, count: nat,
                       runs: bool, pacedNow: bool, restarts: bool, next: int)
    requires OnSchedule(now, first, paced, true, again, deadline, base, from, count)
    requires deadline <= now && now - first <= MAX_LAG
    requires runs ==> next == if restarts then 0 else deadline + (if pacedNow then BATCH else 0)
    ensures OnSchedule(now, first, paced && pacedNow, runs, again || restarts, next,
                       if restarts then 0 else base, if restarts then count + 1 else from, count + 1)
  {
  }

  /** At full speed there is no grid. */
  lemma AnyDeadline(now: int, first: int, running: bool, again: bool, deadline: int, base: int, from: nat, count: nat)
    requires OnSchedule(now, first, false, running, again, deadline, base, from, count)
    ensures OnSchedule(now, first, false, running, again, now, base, from, count)
  {
  }

  lemma ScheduleSays(now: int, first: int, paced: bool, running: bool, again: bool, deadline: int,
                     base: int, from: nat, count: nat)
    requires OnSchedule(now, first, paced, running, again, deadline, base, from, count)
    ensures from <= count && (if again then from > 0 && base == 0 else from == 0 && base == first)
    ensures paced && running ==> deadline == base + BATCH * (count - from)
    ensures paced && running && count > from ==> deadline <= now + BATCH
    ensures paced && !again ==> count <= 6
    ensures paced && running && again && deadline > now >= 0 ==> count == from + now / BATCH + 1
  {
  }

  ghost predicate Unhalting(machine: Machine) {
    forall n :: !Halts(machine(n))
  }

  /** A clock that goes on between any two readings. */
  ghost predicate Rising(walls: nat -> int) {
    forall n: nat :: walls(n) < walls(n + 1)
  }

  /** No reading of the clock after the first has yet seen the end of the slice. */
  ghost predicate SliceLasts(walls: nat -> int, asked: nat) {
    forall k: nat :: 0 < k < asked ==> walls(k) < walls(0) + FULL_SPEED_SLICE
  }

  /** The last reading of the clock was the first to see the end of the slice. */
  ghost predicate SliceUsed(walls: nat -> int, asked: nat) {
    asked > 1 && SliceLasts(walls, asked - 1) && walls(asked - 1) >= walls(0) + FULL_SPEED_SLICE
  }

  lemma SliceBegins(walls: nat -> int)
    ensures SliceLasts(walls, 1)
  {
  }

  lemma SliceGoesOn(walls: nat -> int, asked: nat)
    requires asked > 0 && SliceLasts(walls, asked)
    ensures if walls(asked) < walls(0) + FULL_SPEED_SLICE then SliceLasts(walls, asked + 1) else SliceUsed(walls, asked + 1)
  {
  }

  function Left(time: int): nat { if time < 0 then 0 else time + 1 }

  lemma NoHaltNoStop(machine: Machine, from: nat, end: nat, carry: int, target: int, stop: Stop)
    requires IsBatch(machine, from, end, carry, target, stop)
    ensures stop != NoStop ==> exists n :: Halts(machine(n))
  {
    hide Cycles;
  }

  // ---------------------------------------------------------------- foreseeable acts

  datatype Status = Status(running: bool, queue: seq<Entry>, posted: nat, starts: nat)

  /** Entries whose leaving the queue does nothing else. */
  predicate Idle(e: Entry) { e.Mark? || e.job.acts == [] }

  ghost predicate AllIdle(queue: seq<Entry>) { forall i :: 0 <= i < |queue| ==> Idle(queue[i]) }

  /** What a drain leaves of a queue of idle entries. */
  function DrainedQueue(queue: seq<Entry>, running: bool): seq<Entry> {
    if queue == [] || (queue[0].Mark? && running) then queue else DrainedQueue(queue[1..], running)
  }

  function AfterDrain(v: Status): Status { v.(queue := DrainedQueue(v.queue, v.running)) }

  ghost predicate Foreseen(a: Act, v: Status) {
    a.Post? || a.Start? || a.Stop? || (a.Sync? && a.job.acts == [] && AllIdle(v.queue))
  }

  function AfterAct(a: Act, v: Status): Status {
    match a
    case Post(j) => v.(queue := v.queue + [Work(v.posted, j)], posted := v.posted + 1)
    case Start =>
      if v.running then v
      else v.(running := true, queue := v.queue + [Mark(v.posted)], posted := v.posted + 1, starts := v.starts + 1)
    case Stop => v.(running := false)
    case Sync(_) => AfterDrain(v)
    case SetFullSpeed(_) => v
  }

  ghost predicate AllForeseen(acts: seq<Act>, v: Status) {
    acts == [] || (Foreseen(acts[0], v) && AllForeseen(acts[1..], AfterAct(acts[0], v)))
  }

  function AfterActs(acts: seq<Act>, v: Status): Status {
    if acts == [] then v else AfterActs(acts[1..], AfterAct(acts[0], v))
  }

  lemma NoActs(v: Status)
    ensures AllForeseen([], v) && AfterActs([], v) == v
  {
  }

  // ---------------------------------------------------------------- what every runner's log says

  /** The n-th entry to leave is the n-th that was posted, a job by running. */
  lemma PopIndex(r: EmulationRunner, i: nat)
    requires r.Valid() && i < |r.log| && Leaves(r.log[i])
    ensures r.log[i].ticket == |Popped(r.log[..i])| && (r.log[i].Ran? <==> IsJob(r.jobs, r.log[i].ticket))
    ensures Popped(r.log) == FirstTickets(r.served)
  {
    hide Popped, Told, Goes, Queued, Jumped;
    LeavesInTurn(r.log, r.jobs, r.served, i);
    assert EventOk(r.log[i], r.jobs);
  }

  /** A job ran before a batch exactly when it was posted before the entry at the head of the queue just then. */
  lemma JobsAroundLoop(r: EmulationRunner, t: nat, b: nat)
    requires r.Valid() && IsJob(r.jobs, t) && b < |r.log| && r.log[b].Batched?
    ensures Ran(t) in r.log[..b] <==> t < r.log[b].head
    ensures r.log[b].head <= r.log[b].loop
  {
    hide Popped, LoopsRise, AllStarted, Together, Goes, Queued, Jumped;
    RanBy(r.log, r.jobs, r.served, t, b);
    assert EventOk(r.log[b], r.jobs);
  }

  /**
   Between two batches of a loop there are only batches of it, and jobs run inline by callbacks,
   unless the first of them ran ahead of a job at the head of the queue.
   */
  lemma BatchesTogether(r: EmulationRunner, i: nat, k: nat, j: nat)
    requires r.Valid() && i < k < j < |r.log| && r.log[i].Batched? && r.log[j].Batched? && r.log[i].loop == r.log[j].loop
    requires !IsJob(r.jobs, r.log[i].head)
    ensures r.log[k] == Synced || r.log[k] == r.log[i]
  {
    hide Popped, AllStarted, Goes, Queued, Jumped;
    var log := r.log;
    assert log[i].head == log[j].head;
    PoppedGrows(log, i, j);
    PoppedGrows(log, i, k);
    PoppedGrows(log, k, j);
  }

  /** In that case jobs run between them exactly when any entry leaves the queue. */
  lemma JobsBetween(r: EmulationRunner, i: nat, j: nat)
    requires r.Valid() && i < j < |r.log| && r.log[i].Batched? && r.log[j].Batched? && r.log[i].loop == r.log[j].loop
    ensures (exists k :: i < k < j && r.log[k].Ran?) <==> IsJob(r.jobs, r.log[i].head) && r.log[i].head != r.log[j].head
  {
    hide Popped, AllStarted, LoopsRise, Goes, Queued, Jumped;
    var log := r.log;
    PoppedGrows(log, i, j);
    if log[i].head != log[j].head {
      var k := FirstToLeave(log, i, j);
      LeavesInTurn(log, r.jobs, r.served, k);
      assert EventOk(log[k], r.jobs);
    }
  }

  /**
   A batch runs ahead of a job at the head of the queue if and only if its loop's one start found
   that job there and nothing has left the queue since. Such a start was made amid a pump's batches.
   */
  lemma AheadOfJob(r: EmulationRunner, b: nat) returns (s: nat)
    requires r.Valid() && b < |r.log| && r.log[b].Batched?
    ensures s < b && Starts(r.log, s, r.log[b].loop) && forall s': nat :: Starts(r.log, s', r.log[b].loop) ==> s' == s
    ensures IsJob(r.jobs, r.log[b].head) <==> IsJob(r.jobs, r.log[s].head) && forall k :: s < k < b ==> !Leaves(r.log[k])
    ensures IsJob(r.jobs, r.log[b].head) ==> r.log[s].amid
  {
    hide Popped, Together, Goes, Queued, Jumped, OnlyJobs;
    var log := r.log;
    assert HasStart(log, r.jobs, b);
    s :| s < b && Starts(log, s, log[b].loop) && Follows(log[s], log[b], r.jobs);
    PoppedGrows(log, s, b);
  }

  /**
   Every job posted before a loop was started ran before a batch of it that is in its place, if and
   only if the start found no job in the queue behind an older loop's mark.
   */
  lemma JobsBeforeLoop(r: EmulationRunner, s: nat, b: nat)
    requires r.Valid() && b < |r.log| && r.log[b].Batched? && Starts(r.log, s, r.log[b].loop) && !IsJob(r.jobs, r.log[b].head)
    ensures (forall t: nat :: t < r.log[b].loop && IsJob(r.jobs, t) ==> Ran(t) in r.log[..b]) <==>
            (forall m: nat, t: nat :: r.log[s].head <= m < t < r.log[b].loop && IsMark(r.jobs, m) ==> !IsJob(r.jobs, t))
  {
    hide Popped, Together, Goes, Queued, Jumped, InTurn;
    var log, jobs, head := r.log, r.jobs, r.log[b].head;
    var start := AheadOfJob(r, b);
    assert start == s;
    assert HasStart(log, jobs, b);
    assert Follows(log[s], log[b], jobs);
    forall t: nat | IsJob(jobs, t) ensures Ran(t) in log[..b] <==> t < head {
      JobsAroundLoop(r, t, b);
    }
    HeadKnown(r, b);
    assert IsMark(jobs, head);
    if t: nat :| t < log[b].loop && IsJob(jobs, t) && head <= t {
      assert log[s].head <= head < t && IsMark(jobs, head) && IsJob(jobs, t);
    } else {
      forall m: nat | log[s].head <= m && IsMark(jobs, m) ensures head <= m {
        MarkNotAmong(jobs, log[s].head, head, m);
      }
    }
  }

  lemma HeadKnown(r: EmulationRunner, b: nat)
    requires r.Valid() && b < |r.log| && r.log[b].Batched?
    ensures r.log[b].head <= r.log[b].loop < |r.jobs|
  {
    hide Popped, Told, Goes, Queued, Jumped;
    assert EventOk(r.log[b], r.jobs);
  }

  // ---------------------------------------------------------------- two restarts

  /**
   The bound of six batches needs that no callback restarts the loop: a callback that stops and
   starts it makes one pump run a batch for every 20 ms since the clock's epoch.
   */
  method RestartInCallback(now: int) returns (count: nat)
    requires now >= 0
    ensures count == now / BATCH + 2
  {
    hide EmulationRunner.Valid;
    var runner := Running();
    var acts := [Stop, Start];
    StopStart(runner.Current());
    ghost var story;
    count, story := runner.Pump(now, [Turn([], [], acts)], n => n);
  }

  /** A loop just started, on a machine that never stops by itself. */
  method Running() returns (runner: EmulationRunner)
    ensures fresh(runner) && fresh(runner.pace) && runner.Valid() && runner.clock == 0 && !runner.fullSpeed
    ensures !runner.draining && !runner.pumping && Unhalting(runner.pace.machine) && runner.deadline == 0
    ensures runner.Current() == Status(true, [Mark(0)], 1, 1)
  {
    hide EmulationRunner.Valid;
    var pace := new Pace(284, n => StepResult(1, false, false, false, false, CpuPanel), n => 0);
    runner := new EmulationRunner(pace);
    runner.DoStart();
  }

  lemma FirstAct(a: Act, rest: seq<Act>, v: Status)
    ensures AfterActs([a] + rest, v) == AfterActs(rest, AfterAct(a, v))
    ensures AllForeseen([a] + rest, v) <==> Foreseen(a, v) && AllForeseen(rest, AfterAct(a, v))
  {
    assert ([a] + rest)[1..] == rest;
  }

  lemma OneAct(a: Act, v: Status)
    ensures AfterActs([a], v) == AfterAct(a, v) && (AllForeseen([a], v) <==> Foreseen(a, v))
  {
    assert [a] + [] == [a];
    FirstAct(a, [], v);
    NoActs(AfterAct(a, v));
  }

  lemma StopStart(v: Status)
    requires v.running
    ensures AllForeseen([Stop, Start], v)
    ensures AfterActs([Stop, Start], v) == v.(queue := v.queue + [Mark(v.posted)], posted := v.posted + 1, starts := v.starts + 1)
  {
    assert [Stop, Start] == [Stop] + [Start];
    FirstAct(Stop, [Start], v);
    OneAct(Start, AfterAct(Stop, v));
  }

  const NOTHING := Job([])

  /** The callback that breaks the order: stop, drain, post a job, start. */
  const BEHIND_JOB := [Stop, Sync(NOTHING), Post(NOTHING), Start]

  lemma StopSyncPostStart(v: Status)
    requires v.running && AllIdle(v.queue)
    ensures AllForeseen(BEHIND_JOB, v)
    ensures var p := v.posted;
            AfterActs(BEHIND_JOB, v) == v.(queue := [Work(p, NOTHING), Mark(p + 1)], posted := p + 2, starts := v.starts + 1)
  {
    hide AllForeseen, AfterActs, AllIdle, DrainedQueue;
    var w := v.(running := false);
    var x := w.(queue := []);
    var y := x.(queue := [Work(v.posted, NOTHING)], posted := v.posted + 1);
    NoneLeft(v.queue);
    assert BEHIND_JOB == [Stop] + [Sync(NOTHING), Post(NOTHING), Start];
    FirstAct(Stop, [Sync(NOTHING), Post(NOTHING), Start], v);
    assert [Sync(NOTHING), Post(NOTHING), Start] == [Sync(NOTHING)] + [Post(NOTHING), Start];
    FirstAct(Sync(NOTHING), [Post(NOTHING), Start], w);
    assert [Post(NOTHING), Start] == [Post(NOTHING)] + [Start];
    assert x.queue + [Work(x.posted, NOTHING)] == y.queue;
    FirstAct(Post(NOTHING), [Start], x);
    OneAct(Start, y);
    assert AfterAct(Stop, v) == w && AfterAct(Sync(NOTHING), w) == x && AfterAct(Post(NOTHING), x) == y;
    assert y.queue + [Mark(y.posted)] == [Work(v.posted, NOTHING), Mark(v.posted + 1)];
  }

  lemma JobThenMark(p: nat, q: nat)
    ensures AllIdle([Work(p, NOTHING), Mark(q)]) && DrainedQueue([Work(p, NOTHING), Mark(q)], true) == [Mark(q)]
  {
    assert [Work(p, NOTHING), Mark(q)][1..] == [Mark(q)];
  }

  lemma {:induction false} NoneLeft(queue: seq<Entry>)
    ensures DrainedQueue(queue, false) == []
    decreases |queue|
  {
    if queue != [] {
      NoneLeft(queue[1..]);
    }
  }

  /**
   Started so by a callback, the loop runs on ahead of the job, which then runs between two of the
   loop's batches: that of the restart's pump and that of the next pump.
   */
  method RestartBehindJob(now: int) returns (count: nat, ghost log: seq<Event>, ghost i: nat, ghost k: nat, ghost j: nat)
    requires now >= 0
    ensures count == now / BATCH + 2
    ensures i < k < j < |log| && log[i].Batched? && log[k].Ran? && log[j].Batched? && log[i].loop == log[j].loop
  {
    hide EmulationRunner.Valid;
    var runner := Running();
    StopSyncPostStart(runner.Current());
    JobThenMark(1, 2);
    ghost var story;
    count, story := runner.Pump(now, [Turn([], [], BEHIND_JOB)], n => n);
    ghost var before, loop, served := runner.log, runner.loop, runner.served;
    assert RanAhead(runner.log, runner.jobs, runner.loop);
    i :| BatchAhead(runner.log, runner.jobs, runner.loop, i);
    ghost var head := runner.log[i].head;
    MarkAtHead(runner);
    var more;
    more, story := runner.Pump(now + BATCH, [], n => n);
    log, j := runner.log, |before|;
    assert log[j] == Batched(loop, served);
    JobsBetween(runner, i, j);
    k :| i < k < j && log[k].Ran?;
  }

  lemma MarkAtHead(r: EmulationRunner)
    requires r.Valid() && AtMark(r.queue)
    ensures !IsJob(r.jobs, r.served) && r.deadline <= r.clock + BATCH
  {
    hide InTurn, Told, Goes, Jumped;
    HeadIs(r.queue, r.jobs, r.served);
  }
}
