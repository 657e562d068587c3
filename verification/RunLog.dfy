/**
 What a serial queue with a run loop tells of itself: which entries left it, which starts took
 effect, which batches ran and for which start. Posted jobs run once each, in order. Where a loop's
 batches stand among them is decided by what the start found at the head of the queue.
 */
module RunLog {
  /**
   Ran and LoopOver are entries that leave the queue: a job that runs, a mark whose loop is over.
   Started is a start that takes effect, by its mark's ticket, and whether the batches of a pump
   were under way; Batched is a batch, by the start it belongs to. Both tell the ticket at the head
   of the queue. Synced is a job run inline.
   */
  datatype Event =
    | Ran(ticket: nat) | LoopOver(ticket: nat)
    | Started(loop: nat, head: nat, amid: bool) | Batched(loop: nat, head: nat) | Synced

  predicate Leaves(e: Event) { e.Ran? || e.LoopOver? }

  predicate OfLoop(e: Event) { e.Started? || e.Batched? }

  /** The entries that left the queue, in order. */
  function Popped(log: seq<Event>): seq<nat> {
    if log == [] then []
    else
      var e := log[|log| - 1];
      Popped(log[..|log| - 1]) + (if Leaves(e) then [e.ticket] else [])
  }

  function FirstTickets(n: nat): seq<nat> {
    seq(n, i requires 0 <= i < n => i)
  }

  /** Of each ticket given out `jobs` tells whether it is a job's. */
  predicate IsJob(jobs: seq<bool>, ticket: nat) { ticket < |jobs| && jobs[ticket] }

  predicate IsMark(jobs: seq<bool>, ticket: nat) { ticket < |jobs| && !jobs[ticket] }

  predicate EventOk(e: Event, jobs: seq<bool>) {
    match e
    case Ran(t) => IsJob(jobs, t)
    case LoopOver(t) => IsMark(jobs, t)
    case Started(l, h, _) => h <= l && IsMark(jobs, l)
    case Batched(l, h) => h <= l && IsMark(jobs, l)
    case Synced => true
  }

  /** Every entry left the queue in its turn: jobs by running, marks by the loop being over. */
  ghost predicate InTurn(log: seq<Event>, jobs: seq<bool>, served: nat) {
    && Popped(log) == FirstTickets(served) && served <= |jobs|
    && forall i :: 0 <= i < |log| ==> EventOk(log[i], jobs)
  }

  /** The heads told are the queue's: as many entries have left. */
  ghost predicate HeadsTrue(log: seq<Event>) {
    forall i :: 0 <= i < |log| && OfLoop(log[i]) ==> log[i].head == |Popped(log[..i])|
  }

  /** Starts and batches come loop by loop, each loop opened by its one start. */
  ghost predicate LoopsRise(log: seq<Event>) {
    forall i, j :: 0 <= i < j < |log| && OfLoop(log[i]) && OfLoop(log[j]) ==>
      log[i].loop <= log[j].loop && (log[j].Started? ==> log[i].loop < log[j].loop)
  }

  ghost predicate LoopsBelow(log: seq<Event>, n: nat) {
    forall i :: 0 <= i < |log| && OfLoop(log[i]) ==> log[i].loop < n
  }

  predicate Starts(log: seq<Event>, s: nat, loop: nat) {
    s < |log| && log[s].Started? && log[s].loop == loop
  }

  /** Every entry from `from` up to `until` is a job's. */
  ghost predicate OnlyJobs(jobs: seq<bool>, from: nat, until: nat) {
    forall t: nat :: from <= t < until ==> IsJob(jobs, t)
  }

  /**
   A batch and its start: only jobs left the queue between them. With a job at the head of the
   queue, nothing left it, and the start was made amid the batches of a pump.
   */
  ghost predicate Follows(s: Event, b: Event, jobs: seq<bool>)
    requires s.Started? && b.Batched?
  {
    && s.head <= b.head && OnlyJobs(jobs, s.head, b.head)
    && (IsJob(jobs, b.head) ==> b.head == s.head && s.amid)
  }

  ghost predicate HasStart(log: seq<Event>, jobs: seq<bool>, b: nat)
    requires b < |log| && log[b].Batched?
  {
    exists s: nat :: s < b && Starts(log, s, log[b].loop) && Follows(log[s], log[b], jobs)
  }

  ghost predicate AllStarted(log: seq<Event>, jobs: seq<bool>) {
    forall b: nat :: b < |log| && log[b].Batched? ==> HasStart(log, jobs, b)
  }

  /** Once a batch ran with a mark at the head, that mark stays there while the loop's batches go on. */
  ghost predicate Together(log: seq<Event>, jobs: seq<bool>) {
    forall i, j :: 0 <= i < j < |log| && log[i].Batched? && log[j].Batched? && log[i].loop == log[j].loop ==>
      IsJob(jobs, log[i].head) || log[i].head == log[j].head
  }

  ghost predicate Told(log: seq<Event>, jobs: seq<bool>) {
    HeadsTrue(log) && LoopsRise(log) && AllStarted(log, jobs) && Together(log, jobs)
  }

  /** A loop is on: its start, and what its next batch can rely on. */
  ghost predicate Goes(log: seq<Event>, jobs: seq<bool>, served: nat, loop: nat, origin: nat) {
    && served <= loop && IsMark(jobs, loop) && Starts(log, origin, loop)
    && log[origin].head <= served && OnlyJobs(jobs, log[origin].head, served)
    && forall i :: 0 <= i < |log| && log[i].Batched? && log[i].loop == loop ==>
         IsJob(jobs, log[i].head) || log[i].head == served
  }

  /** The start was made amid a pump's batches, and nothing has left the queue since. */
  predicate Jumped(log: seq<Event>, origin: nat, served: nat) {
    origin < |log| && log[origin].Started? && log[origin].head == served && log[origin].amid
  }

  // ---------------------------------------------------------------- one more event, one more ticket

  lemma PoppedOne(log: seq<Event>, e: Event)
    ensures Popped(log + [e]) == Popped(log) + (if Leaves(e) then [e.ticket] else [])
  {
    assert (log + [e])[..|log|] == log;
  }

  lemma HeadsTrueOn(log: seq<Event>, e: Event)
    requires HeadsTrue(log) && (OfLoop(e) ==> e.head == |Popped(log)|)
    ensures HeadsTrue(log + [e])
  {
    hide Popped;
    forall i | 0 <= i < |log + [e]| && OfLoop((log + [e])[i])
      ensures (log + [e])[i].head == |Popped((log + [e])[..i])|
    {
      assert (log + [e])[..i] == log[..i];
      assert i == |log| ==> log[..i] == log;
    }
  }

  lemma AllStartedOn(log: seq<Event>, jobs: seq<bool>, e: Event)
    requires AllStarted(log, jobs)
    requires e.Batched? ==> exists s: nat :: Starts(log, s, e.loop) && Follows(log[s], e, jobs)
    ensures AllStarted(log + [e], jobs)
  {
    hide Follows;
    var more := log + [e];
    forall b: nat | b < |more| && more[b].Batched?
      ensures HasStart(more, jobs, b)
    {
      if b < |log| {
        assert HasStart(log, jobs, b);
        var s: nat :| s < b && Starts(log, s, log[b].loop) && Follows(log[s], log[b], jobs);
        assert Starts(more, s, more[b].loop) && Follows(more[s], more[b], jobs);
      } else {
        var s: nat :| Starts(log, s, e.loop) && Follows(log[s], e, jobs);
        assert Starts(more, s, more[b].loop) && Follows(more[s], more[b], jobs);
      }
    }
  }

  lemma InTurnOn(log: seq<Event>, jobs: seq<bool>, served: nat, e: Event)
    requires InTurn(log, jobs, served) && EventOk(e, jobs) && !Leaves(e)
    ensures InTurn(log + [e], jobs, served)
  {
    hide Popped, EventOk;
    PoppedOne(log, e);
  }

  /** An entry that leaves the queue in its turn, or a job run inline. */
  lemma NotOfLoop(log: seq<Event>, jobs: seq<bool>, e: Event, n: nat)
    requires Told(log, jobs) && LoopsBelow(log, n) && !OfLoop(e)
    ensures Told(log + [e], jobs) && LoopsBelow(log + [e], n)
  {
    hide AllStarted, HeadsTrue;
    HeadsTrueOn(log, e);
    AllStartedOn(log, jobs, e);
  }

  lemma Served(log: seq<Event>, jobs: seq<bool>, served: nat)
    requires InTurn(log, jobs, served) && served < |jobs|
    ensures InTurn(log + [if jobs[served] then Ran(served) else LoopOver(served)], jobs, served + 1)
  {
    hide Popped;
    PoppedOne(log, if jobs[served] then Ran(served) else LoopOver(served));
    assert FirstTickets(served + 1) == FirstTickets(served) + [served];
  }

  /** A job that leaves the queue while a loop is on; a mark leaves it only when none is. */
  lemma GoesPast(log: seq<Event>, jobs: seq<bool>, served: nat, loop: nat, origin: nat, e: Event)
    requires Goes(log, jobs, served, loop, origin) && IsJob(jobs, served) && !OfLoop(e)
    ensures Goes(log + [e], jobs, served + 1, loop, origin)
  {
  }

  lemma GoesOn(log: seq<Event>, jobs: seq<bool>, served: nat, loop: nat, origin: nat, e: Event)
    requires Goes(log, jobs, served, loop, origin) && !OfLoop(e)
    ensures Goes(log + [e], jobs, served, loop, origin)
  {
    hide OnlyJobs;
  }

  /** A start that takes effect; its mark is the last ticket. */
  lemma StartTold(log: seq<Event>, jobs: seq<bool>, served: nat, amid: bool)
    requires Told(log, jobs) && InTurn(log, jobs, served) && jobs != [] && !jobs[|jobs| - 1] && served < |jobs|
    requires LoopsBelow(log, |jobs| - 1)
    ensures var e := Started(|jobs| - 1, served, amid);
            && Told(log + [e], jobs) && InTurn(log + [e], jobs, served) && LoopsBelow(log + [e], |jobs|)
            && Goes(log + [e], jobs, served, |jobs| - 1, |log|)
            && (amid ==> Jumped(log + [e], |log|, served))
  {
    hide AllStarted, HeadsTrue, Popped;
    var e := Started(|jobs| - 1, served, amid);
    HeadsTrueOn(log, e);
    AllStartedOn(log, jobs, e);
    InTurnOn(log, jobs, served, e);
  }

  /** A batch, with a mark at the head of the queue or after a start amid batches. */
  lemma BatchTold(log: seq<Event>, jobs: seq<bool>, served: nat, loop: nat, origin: nat)
    requires Told(log, jobs) && InTurn(log, jobs, served) && Goes(log, jobs, served, loop, origin) && LoopsBelow(log, loop + 1)
    requires IsJob(jobs, served) ==> Jumped(log, origin, served)
    ensures var e := Batched(loop, served);
            && Told(log + [e], jobs) && InTurn(log + [e], jobs, served) && LoopsBelow(log + [e], loop + 1)
            && Goes(log + [e], jobs, served, loop, origin)
  {
    hide AllStarted, HeadsTrue, Popped, OnlyJobs;
    var e := Batched(loop, served);
    HeadsTrueOn(log, e);
    assert Follows(log[origin], e, jobs);
    AllStartedOn(log, jobs, e);
    InTurnOn(log, jobs, served, e);
  }

  /** A ticket more changes nothing about the earlier ones. */
  lemma SameJobs(jobs: seq<bool>, job: bool, from: nat, until: nat)
    requires until < |jobs|
    ensures IsJob(jobs + [job], until) == IsJob(jobs, until)
    ensures OnlyJobs(jobs, from, until) ==> OnlyJobs(jobs + [job], from, until)
  {
    forall t: nat | from <= t < until && OnlyJobs(jobs, from, until)
      ensures IsJob(jobs + [job], t)
    {
      assert IsJob(jobs, t);
    }
  }

  lemma MarkNotAmong(jobs: seq<bool>, from: nat, until: nat, m: nat)
    requires OnlyJobs(jobs, from, until) && IsMark(jobs, m) && from <= m
    ensures until <= m
  {
    assert m < until ==> IsJob(jobs, m);
  }

  lemma TicketsOn(log: seq<Event>, jobs: seq<bool>, served: nat, job: bool)
    requires Told(log, jobs) && InTurn(log, jobs, served)
    ensures Told(log, jobs + [job])
  {
    hide HeadsTrue, OnlyJobs, Popped;
    forall i | 0 <= i < |log| && log[i].Batched?
      ensures IsJob(jobs + [job], log[i].head) == IsJob(jobs, log[i].head)
    {
      assert EventOk(log[i], jobs);
    }
    forall b: nat | b < |log| && log[b].Batched?
      ensures HasStart(log, jobs + [job], b)
    {
      assert HasStart(log, jobs, b);
      var s: nat :| s < b && Starts(log, s, log[b].loop) && Follows(log[s], log[b], jobs);
      assert EventOk(log[b], jobs);
      SameJobs(jobs, job, log[s].head, log[b].head);
    }
  }

  lemma LoopsGiven(log: seq<Event>, jobs: seq<bool>, served: nat)
    requires InTurn(log, jobs, served)
    ensures LoopsBelow(log, |jobs|)
  {
    hide Popped;
  }

  lemma InTurnMore(log: seq<Event>, jobs: seq<bool>, served: nat, job: bool)
    requires InTurn(log, jobs, served)
    ensures InTurn(log, jobs + [job], served)
  {
    hide Popped;
  }

  lemma GoesMore(log: seq<Event>, jobs: seq<bool>, served: nat, loop: nat, origin: nat, job: bool)
    requires Goes(log, jobs, served, loop, origin) && InTurn(log, jobs, served)
    ensures Goes(log, jobs + [job], served, loop, origin)
  {
    hide Popped, OnlyJobs;
    SameJobs(jobs, job, log[origin].head, served);
    forall i | 0 <= i < |log| && log[i].Batched?
      ensures IsJob(jobs + [job], log[i].head) == IsJob(jobs, log[i].head)
    {
      assert EventOk(log[i], jobs);
    }
  }

  // ---------------------------------------------------------------- what leaves the queue when

  lemma {:induction false} PoppedPrefix(log: seq<Event>, i: nat)
    requires i <= |log|
    ensures Popped(log[..i]) <= Popped(log)
    decreases |log|
  {
    if i == |log| {
      assert log[..i] == log;
    } else {
      PoppedPrefix(log[..|log| - 1], i);
      assert log[..|log| - 1][..i] == log[..i];
    }
  }

  /** As many more have left as entries left in between; none, if none did. */
  lemma {:induction false} PoppedGrows(log: seq<Event>, i: nat, j: nat)
    requires i <= j <= |log|
    ensures |Popped(log[..i])| <= |Popped(log[..j])|
    ensures (exists k :: i <= k < j && Leaves(log[k])) <==> |Popped(log[..i])| < |Popped(log[..j])|
    decreases j
  {
    if i < j {
      PoppedGrows(log, i, j - 1);
      assert log[..j][..j - 1] == log[..j - 1];
    }
  }

  /** The n-th entry to leave is entry n. */
  lemma LeavesInTurn(log: seq<Event>, jobs: seq<bool>, served: nat, r: nat)
    requires InTurn(log, jobs, served) && r < |log| && Leaves(log[r])
    ensures log[r].ticket == |Popped(log[..r])|
  {
    PoppedPrefix(log, r + 1);
    assert log[..r + 1][..r] == log[..r];
    var n := |Popped(log[..r])|;
    assert Popped(log[..r + 1])[n] == log[r].ticket;
    assert FirstTickets(served)[n] == n;
  }

  /** If entries left in between, the one at the head left first. */
  lemma {:induction false} FirstToLeave(log: seq<Event>, i: nat, j: nat) returns (k: nat)
    requires i <= j <= |log| && |Popped(log[..i])| < |Popped(log[..j])|
    ensures i <= k < j && Leaves(log[k]) && |Popped(log[..k])| == |Popped(log[..i])|
    decreases j - i
  {
    assert log[..i + 1][..i] == log[..i];
    if Leaves(log[i]) {
      k := i;
    } else {
      k := FirstToLeave(log, i + 1, j);
    }
  }

  lemma {:induction false} LeftBy(log: seq<Event>, t: nat)
    requires t in Popped(log)
    ensures exists i :: 0 <= i < |log| && Leaves(log[i]) && log[i].ticket == t
    decreases |log|
  {
    var most := log[..|log| - 1];
    if t in Popped(most) {
      LeftBy(most, t);
      var i :| 0 <= i < |most| && Leaves(most[i]) && most[i].ticket == t;
      assert log[i] == most[i];
    } else {
      assert Leaves(log[|log| - 1]);
    }
  }

  /** The job has run by event `b` exactly when that many entries have left. */
  lemma RanBy(log: seq<Event>, jobs: seq<bool>, served: nat, t: nat, b: nat)
    requires InTurn(log, jobs, served) && IsJob(jobs, t) && b <= |log|
    ensures Ran(t) in log[..b] <==> t < |Popped(log[..b])|
  {
    var n := |Popped(log[..b])|;
    PoppedPrefix(log, b);
    assert Popped(log[..b]) == FirstTickets(n);
    if t < n {
      assert Popped(log[..b])[t] == t;
      LeftBy(log[..b], t);
      var i :| 0 <= i < b && Leaves(log[i]) && log[i].ticket == t;
      assert EventOk(log[i], jobs);
      assert log[..b][i] == Ran(t);
    }
    if Ran(t) in log[..b] {
      var i: nat :| i < b && log[i] == Ran(t);
      LeavesInTurn(log, jobs, served, i);
      PoppedGrows(log, i, b);
    }
  }
}
