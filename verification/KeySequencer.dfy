/**
 Timed key input. A lane is a queue of resumable tasks (scripts, or keyboard taps) stepped
 against a host and a clock that may answer anything, with cancels at any moment. What the
 host is told, over every run: keys go down and up in pairs and stay down 100 ms, scripts
 press only into a running scan loop, events happen in order, none twice and none skipped,
 and every playback that started is finished.
 */
module KeySequencer {
  import opened Words

  /** Times are in nanoseconds. */
  const HOLD: int := 100_000_000
  const SCAN_POLL: int := 1_500_000

  datatype Event =
    | Key(code: nat) | Wait(ns: int) | FullSpeed | RegularSpeed | ZeroElapseTime | ReportElapseTime
    | Trace(name: Option<string>) | Reload(stage: nat) | InsertCard(card: nat) | ArmCard(card: nat) | Control(what: nat)

  datatype Phase = Next | WaitingToPress | Holding | WaitingIdle | Sleeping | WaitingToApply | WaitingHost

  datatype Task = Task(
    ticket: nat, events: seq<Event>, script: bool, generation: nat, next: nat, phase: Phase, wake: int, code: nat)

  /**
   What the host is told, keys with the time and, where the machine's state matters, what it had
   answered just before. The looks after a key and after a reload, a card or a control are told
   too, with their task and whether it was found cancelled.
   */
  datatype Call =
    | Press(code: nat, at: int, frozen: bool, inLoop: bool) | Release(code: nat, at: int) | Highlight(id: int)
    | SetFullSpeed(on: bool) | ZeroElapse | ReportElapse | ScriptedTrace(name: Option<string>)
    | ApplyReload(stage: nat, frozen: bool, inLoop: bool) | CardIn(card: nat, frozen: bool, inLoop: bool) | CardArmed(card: nat)
    | Controlled(what: nat) | PlaybackStarted | PlaybackFinished
    | SawIdle(ticket: nat, gone: bool, frozen: bool, inLoop: bool) | SawHost(ticket: nat, gone: bool, pending: bool)

  // ---------------------------------------------------------------- what a log says

  /** The key a log leaves down. */
  datatype Hand = Up | Down(code: nat, since: int) | Broken

  function After(h: Hand, c: Call): Hand {
    match c
    case Press(code, at, _, _) => if h == Up then Down(code, at) else Broken
    case Release(code, at) => if h.Down? && h.code == code && at >= h.since + HOLD then Up else Broken
    case _ => h
  }

  function HandOf(log: seq<Call>): Hand {
    if log == [] then Up else After(HandOf(log[..|log| - 1]), log[|log| - 1])
  }

  /** Calls that come from events and playback, without times; highlights left out. */
  datatype Deed =
    | KeyDown(code: nat) | KeyUp(code: nat) | Speed(on: bool) | Zeroed | Reported | Traced(name: Option<string>)
    | Reloaded(stage: nat) | Queued(event: Event) | Did(what: nat) | Started | Finished

  function DeedOf(c: Call): seq<Deed> {
    match c
    case Press(code, _, _, _) => [KeyDown(code)]
    case Release(code, _) => [KeyUp(code)]
    case Highlight(_) => []
    case SetFullSpeed(on) => [Speed(on)]
    case ZeroElapse => [Zeroed]
    case ReportElapse => [Reported]
    case ScriptedTrace(name) => [Traced(name)]
    case ApplyReload(stage, _, _) => [Reloaded(stage)]
    case CardIn(card, _, _) => [Queued(InsertCard(card))]
    case CardArmed(card) => [Queued(ArmCard(card))]
    case Controlled(what) => [Did(what)]
    case PlaybackStarted => [Started]
    case PlaybackFinished => [Finished]
    case SawIdle(_, _, _, _) => []
    case SawHost(_, _, _) => []
  }

  /** What a log still asks for: after a release a look at the machine, after a reload, a card or a control one at the host. */
  datatype Need = Free | NeedsIdle | NeedsHost | Astray

  predicate ClearsIdle(c: Call) { c.SawIdle? && (c.gone || c.frozen || c.inLoop) }

  predicate ClearsHost(c: Call) { c.SawHost? && (c.gone || !c.pending) }

  /** Calls the host has to answer for before anything else is told. */
  predicate AsksHost(c: Call) { c.ApplyReload? || c.CardIn? || c.Controlled? }

  function NeedAfter(n: Need, c: Call): Need {
    if c.Highlight? then n
    else if c.SawIdle? then (if n != NeedsIdle then Astray else if ClearsIdle(c) then Free else NeedsIdle)
    else if c.SawHost? then (if n != NeedsHost then Astray else if ClearsHost(c) then Free else NeedsHost)
    else if n != Free then Astray
    else if c.Release? then NeedsIdle
    else if AsksHost(c) then NeedsHost
    else Free
  }

  function NeedOf(log: seq<Call>): Need {
    if log == [] then Free else NeedAfter(NeedOf(log[..|log| - 1]), log[|log| - 1])
  }

  /** What a task's phase asks for. */
  function NeedIn(p: Phase): Need {
    if p == WaitingIdle then NeedsIdle else if p == WaitingHost then NeedsHost else Free
  }

  function Deeds(log: seq<Call>): seq<Deed> {
    if log == [] then [] else Deeds(log[..|log| - 1]) + DeedOf(log[|log| - 1])
  }

  /** What handling an event means to the host. */
  function Meaning(e: Event): seq<Deed> {
    match e
    case Key(code) => [KeyDown(code), KeyUp(code)]
    case Wait(_) => []
    case FullSpeed => [Speed(true)]
    case RegularSpeed => [Speed(false)]
    case ZeroElapseTime => [Zeroed]
    case ReportElapseTime => [Reported]
    case Trace(name) => [Traced(name)]
    case Reload(stage) => [Reloaded(stage)]
    case InsertCard(_) => [Queued(e)]
    case ArmCard(_) => [Queued(e)]
    case Control(what) => [Did(what)]
  }

  function Meanings(events: seq<Event>): seq<Deed> {
    if events == [] then [] else Meanings(events[..|events| - 1]) + Meaning(events[|events| - 1])
  }

  /** A task that ended: how many of its events were carried out, and whether it was cancelled. */
  datatype Record = Record(ticket: nat, generation: nat, events: seq<Event>, carried: nat, cancelled: bool)

  function RecordOf(t: Task, carried: nat, cancelled: bool): Record {
    Record(t.ticket, t.generation, t.events, carried, cancelled)
  }

  function Story(script: bool, r: Record): seq<Deed>
    requires r.carried <= |r.events|
  {
    var middle := Meanings(r.events[..r.carried]);
    if script then [Started] + middle + [Finished] else middle
  }

  ghost predicate RecordOk(r: Record) {
    r.carried <= |r.events| && (!r.cancelled ==> r.carried == |r.events|)
  }

  ghost predicate HistoryOk(history: seq<Record>) {
    forall i :: 0 <= i < |history| ==> RecordOk(history[i])
  }

  ghost function Stories(script: bool, history: seq<Record>): seq<Deed>
    requires HistoryOk(history)
  {
    if history == [] then []
    else Stories(script, history[..|history| - 1]) + Story(script, history[|history| - 1])
  }

  /** The part of the log a task in progress accounts for: whole events, and a key being held. */
  function Progress(t: Task, carried: nat): seq<Deed>
    requires carried <= |t.events|
  {
    (if t.script then [Started] else []) + Meanings(t.events[..carried]) + (if t.phase == Holding then [KeyDown(t.code)] else [])
  }

  lemma Logged(log: seq<Call>, c: Call)
    ensures HandOf(log + [c]) == After(HandOf(log), c)
    ensures Deeds(log + [c]) == Deeds(log) + DeedOf(c)
    ensures NeedOf(log + [c]) == NeedAfter(NeedOf(log), c)
  {
    assert (log + [c])[..|log|] == log;
  }

  lemma OneMore(events: seq<Event>, k: nat)
    requires k < |events|
    ensures Meanings(events[..k + 1]) == Meanings(events[..k]) + Meaning(events[k])
  {
    assert events[..k + 1][..k] == events[..k];
  }

  lemma Ended(script: bool, history: seq<Record>, r: Record)
    requires HistoryOk(history) && RecordOk(r)
    ensures HistoryOk(history + [r])
    ensures Stories(script, history + [r]) == Stories(script, history) + Story(script, r)
  {
    assert (history + [r])[..|history|] == history;
  }

  // ---------------------------------------------------------------- a task

  ghost predicate KeysOnly(events: seq<Event>) {
    forall i :: 0 <= i < |events| ==> events[i].Key?
  }

  /** A task as it is posted. */
  ghost predicate Posted(t: Task, script: bool) {
    t.script == script && t.next == 0 && t.phase == Next && (!script ==> KeysOnly(t.events))
  }

  /** A task in progress: which event it is on, and how many it has carried out. */
  ghost predicate InProgress(t: Task, carried: nat, cancelled: bool) {
    && carried <= t.next <= |t.events| && t.next <= carried + 1
    && (!t.script ==> KeysOnly(t.events))
    && (t.phase != Next ==> t.next > 0)
    && match t.phase
       case Next => carried == t.next || cancelled
       case WaitingToPress => carried == t.next - 1 && t.events[carried] == Key(t.code)
       case Holding => carried == t.next - 1 && t.events[carried] == Key(t.code)
       case WaitingIdle => carried == t.next
       case Sleeping => carried == t.next
       case WaitingToApply => carried == t.next - 1 && (t.events[carried].Reload? || t.events[carried].InsertCard?)
       case WaitingHost => carried == t.next
  }

  function Rank(p: Phase): nat {
    match p
    case WaitingToPress => 4
    case Holding => 3
    case WaitingIdle => 2
    case WaitingToApply => 3
    case WaitingHost => 2
    case Sleeping => 2
    case Next => 1
  }

  ghost predicate PressesOk(script: bool, log: seq<Call>) {
    forall i :: 0 <= i < |log| && log[i].Press? ==>
      if script then !log[i].frozen && log[i].inLoop else log[i].frozen || log[i].inLoop
  }

  /** Reloads and cards go out into a running scan loop. */
  ghost predicate AppliesOk(log: seq<Call>) {
    forall i :: 0 <= i < |log| && (log[i].ApplyReload? || log[i].CardIn?) ==> !log[i].frozen && log[i].inLoop
  }

  /** A look found a task cancelled: it is the one in progress, cancelled, or one that ended so. */
  ghost predicate Excused(c: Call, generation: nat, history: seq<Record>, t: Option<Task>) {
    (c.SawIdle? || c.SawHost?) && c.gone ==>
      || (t.Some? && t.value.ticket == c.ticket && generation != t.value.generation)
      || exists i: nat :: i < |history| && history[i].ticket == c.ticket && history[i].cancelled
  }

  ghost predicate AllExcused(log: seq<Call>, generation: nat, history: seq<Record>, t: Option<Task>) {
    forall i :: 0 <= i < |log| ==> Excused(log[i], generation, history, t)
  }

  /** A lane's account of itself: everything it told the host, and the tasks that explain it. */
  datatype Book = Book(
    script: bool, generation: nat, playing: bool, log: seq<Call>, carried: nat, history: seq<Record>)

  /** The log agrees with the tasks that ended and the task in progress. */
  ghost predicate BookOk(b: Book, t: Option<Task>) {
    && HistoryOk(b.history) && PressesOk(b.script, b.log) && AppliesOk(b.log)
    && AllExcused(b.log, b.generation, b.history, t) && NeedOf(b.log) == (if t.Some? then NeedIn(t.value.phase) else Free)
    && (t.Some? ==> t.value.script == b.script && t.value.generation <= b.generation
                    && InProgress(t.value, b.carried, b.generation != t.value.generation))
    && Deeds(b.log) == Stories(b.script, b.history) + (if t.Some? then Progress(t.value, b.carried) else [])
    && HandOf(b.log) == (if t.Some? && t.value.phase == Holding then Down(t.value.code, t.value.wake - HOLD) else Up)
    && b.playing == (b.script && t.Some?)
  }

  lemma Associates<T>(a: seq<T>, b: seq<T>, c: seq<T>)
    ensures (a + b) + c == a + (b + c)
  {
  }

  /** Excuses outlast cancels, and the turns of the task in progress. */
  lemma ExcusesStay(log: seq<Call>, generation: nat, later: nat, history: seq<Record>, t: Task, u: Task)
    requires AllExcused(log, generation, history, Some(t)) && t.generation <= generation <= later
    requires u.ticket == t.ticket && u.generation == t.generation
    ensures AllExcused(log, later, history, Some(u))
  {
    forall i | 0 <= i < |log| ensures Excused(log[i], later, history, Some(u)) {
      assert Excused(log[i], generation, history, Some(t));
    }
  }

  lemma ExcusesWithout(log: seq<Call>, generation: nat, later: nat, history: seq<Record>, t: Option<Task>)
    requires AllExcused(log, generation, history, None)
    ensures AllExcused(log, later, history, t)
  {
    forall i | 0 <= i < |log| ensures Excused(log[i], later, history, t) {
      assert Excused(log[i], generation, history, None);
    }
  }

  lemma OneMoreExcused(log: seq<Call>, c: Call, generation: nat, history: seq<Record>, t: Option<Task>)
    requires AllExcused(log, generation, history, t) && Excused(c, generation, history, t)
    ensures AllExcused(log + [c], generation, history, t)
  {
    hide Excused;
  }

  /** A task that ends leaves its excuse in its record. */
  lemma ExcusesRecorded(log: seq<Call>, generation: nat, history: seq<Record>, t: Task, r: Record)
    requires AllExcused(log, generation, history, Some(t)) && r.ticket == t.ticket
    requires r.cancelled <==> generation != t.generation
    ensures AllExcused(log, generation, history + [r], None)
  {
    var h := history + [r];
    forall i | 0 <= i < |log| ensures Excused(log[i], generation, h, None) {
      assert Excused(log[i], generation, history, Some(t));
      assert h[|history|] == r;
      assert forall k :: 0 <= k < |history| ==> h[k] == history[k];
    }
  }

  /** A cancel that comes in changes nothing else. */
  lemma CancelOk(b: Book, t: Option<Task>, generation: nat)
    requires BookOk(b, t) && generation >= b.generation
    ensures BookOk(b.(generation := generation), t)
  {
    hide HistoryOk, PressesOk, AppliesOk, Deeds, Stories, Progress, HandOf, NeedOf, AllExcused, KeysOnly;
    match t
    case Some(v) => ExcusesStay(b.log, b.generation, generation, b.history, v, v);
    case None => ExcusesWithout(b.log, b.generation, generation, b.history, None);
  }

  /** Only a held key is tied to its wake time. */
  lemma RewakeOk(b: Book, t: Task, wake: int)
    requires BookOk(b, Some(t)) && t.phase != Holding
    ensures BookOk(b, Some(t.(wake := wake)))
  {
    hide HistoryOk, PressesOk, AppliesOk, Deeds, Stories, HandOf, NeedOf, AllExcused, KeysOnly, Meanings;
    ExcusesStay(b.log, b.generation, b.generation, b.history, t, t.(wake := wake));
  }

  /** A phase that ends with nothing asked for, or whose task is cancelled, leads to the next event. */
  lemma ToNextOk(b: Book, t: Task)
    requires BookOk(b, Some(t)) && t.phase != Holding && (b.generation != t.generation || b.carried == t.next)
    requires NeedIn(t.phase) == Free
    ensures BookOk(b, Some(t.(phase := Next)))
  {
    hide HistoryOk, PressesOk, AppliesOk, Deeds, Stories, HandOf, NeedOf, AllExcused, KeysOnly, Meanings;
    ExcusesStay(b.log, b.generation, b.generation, b.history, t, t.(phase := Next));
  }

  /** A look after a key, a reload, a card or a control: the task goes on exactly when it answers the need. */
  lemma SeenOk(b: Book, t: Task, c: Call)
    requires BookOk(b, Some(t)) && (t.phase == WaitingIdle || t.phase == WaitingHost)
    requires if t.phase == WaitingIdle then c.SawIdle? else c.SawHost?
    requires c.ticket == t.ticket && (c.gone <==> b.generation != t.generation)
    ensures BookOk(b.(log := b.log + [c]), Some(if ClearsIdle(c) || ClearsHost(c) then t.(phase := Next) else t))
  {
    hide HistoryOk, PressesOk, AppliesOk, Stories, KeysOnly, Deeds, HandOf, NeedOf, AllExcused, Meanings;
    var u := if ClearsIdle(c) || ClearsHost(c) then t.(phase := Next) else t;
    OneCallTold(b, c);
    Logged(b.log, c);
    ExcusesStay(b.log, b.generation, b.generation, b.history, t, u);
    OneMoreExcused(b.log, c, b.generation, b.history, Some(u));
    assert Progress(u, b.carried) == Progress(t, b.carried);
    assert DeedOf(c) == [];
    assert Deeds(b.log + [c]) == Deeds(b.log);
  }

  /** Highlights say nothing about keys or events. */
  lemma HighlightOk(b: Book, t: Option<Task>, id: int)
    requires BookOk(b, t)
    ensures BookOk(b.(log := b.log + [Highlight(id)]), t)
  {
    hide HistoryOk, Stories, Progress, KeysOnly, Deeds, HandOf, NeedOf, AllExcused, InProgress;
    Logged(b.log, Highlight(id));
    OneMoreExcused(b.log, Highlight(id), b.generation, b.history, t);
    assert Deeds(b.log + [Highlight(id)]) == Deeds(b.log);
  }

  ghost predicate MayPress(script: bool, frozen: bool, inLoop: bool) {
    if script then !frozen && inLoop else frozen || inLoop
  }

  lemma PressOk(b: Book, t: Task, now: int, frozen: bool, inLoop: bool)
    requires BookOk(b, Some(t)) && t.phase == WaitingToPress && MayPress(b.script, frozen, inLoop)
    ensures BookOk(b.(log := b.log + [Press(t.code, now, frozen, inLoop)]), Some(t.(wake := now + HOLD, phase := Holding)))
  {
    hide HistoryOk, Stories, Progress, KeysOnly, Deeds, HandOf, NeedOf, AllExcused, Meanings;
    var u := t.(wake := now + HOLD, phase := Holding);
    var c := Press(t.code, now, frozen, inLoop);
    Logged(b.log, c);
    ExcusesStay(b.log, b.generation, b.generation, b.history, t, u);
    OneMoreExcused(b.log, c, b.generation, b.history, Some(u));
    PressProgress(t, u, b.carried);
    Associates(Stories(b.script, b.history), Progress(t, b.carried), [KeyDown(t.code)]);
  }

  lemma PressProgress(t: Task, u: Task, carried: nat)
    requires carried <= |t.events| && t.phase == WaitingToPress && u == t.(wake := u.wake, phase := Holding)
    ensures Progress(u, carried) == Progress(t, carried) + [KeyDown(t.code)]
  {
  }

  lemma ReleaseOk(b: Book, t: Task, now: int)
    requires BookOk(b, Some(t)) && t.phase == Holding && now >= t.wake
    ensures BookOk(b.(log := b.log + [Release(t.code, now)], carried := b.carried + 1), Some(t.(phase := WaitingIdle)))
  {
    hide HistoryOk, Stories, Progress, KeysOnly, Deeds, HandOf, NeedOf, AllExcused, Meanings;
    var c := Release(t.code, now);
    Logged(b.log, c);
    ExcusesStay(b.log, b.generation, b.generation, b.history, t, t.(phase := WaitingIdle));
    OneMoreExcused(b.log, c, b.generation, b.history, Some(t.(phase := WaitingIdle)));
    ReleaseProgress(t, b.carried);
    Associates(Stories(b.script, b.history), Progress(t, b.carried), [KeyUp(t.code)]);
  }

  lemma ReleaseProgress(t: Task, carried: nat)
    requires carried < |t.events| && t.phase == Holding && t.events[carried] == Key(t.code)
    ensures Progress(t.(phase := WaitingIdle), carried + 1) == Progress(t, carried) + [KeyUp(t.code)]
  {
    OneMore(t.events, carried);
    var m := Meanings(t.events[..carried]);
    assert m + [KeyDown(t.code), KeyUp(t.code)] == (m + [KeyDown(t.code)]) + [KeyUp(t.code)];
    hide Meanings;
  }

  /** An event whose whole meaning is told in one go. */
  lemma ToldOk(b: Book, t: Task, u: Task, log: seq<Call>)
    requires BookOk(b, Some(t)) && t.phase != Holding && u.phase != Holding && b.carried < |t.events|
    requires u == t.(phase := u.phase, next := u.next, wake := u.wake, code := u.code)
    requires Deeds(log) == Deeds(b.log) + Meaning(t.events[b.carried]) && HandOf(log) == HandOf(b.log)
    requires PressesOk(b.script, log) && InProgress(u, b.carried + 1, b.generation != t.generation)
    requires AppliesOk(log) && AllExcused(log, b.generation, b.history, Some(t)) && NeedOf(log) == NeedIn(u.phase)
    ensures BookOk(b.(log := log, carried := b.carried + 1), Some(u))
  {
    hide HistoryOk, PressesOk, AppliesOk, Stories, KeysOnly, Deeds, HandOf, NeedOf, AllExcused, Meanings, Meaning, InProgress,
         Progress, NeedIn;
    ExcusesStay(log, b.generation, b.generation, b.history, t, u);
    CarryProgress(t, u, b.carried);
    Associates(Stories(b.script, b.history), Progress(t, b.carried), Meaning(t.events[b.carried]));
  }

  lemma CarryProgress(t: Task, u: Task, carried: nat)
    requires carried < |t.events| && t.phase != Holding && u.phase != Holding && u.events == t.events && u.script == t.script
    ensures Progress(u, carried + 1) == Progress(t, carried) + Meaning(t.events[carried])
  {
    OneMore(t.events, carried);
    hide Meanings, Meaning;
  }

  /** A task begins, or its next event does. */
  lemma BeginOk(b: Book, t: Task, u: Task)
    requires BookOk(b, Some(t)) && t.phase == Next && u.phase != Holding
    requires u == t.(phase := u.phase, next := u.next, wake := u.wake, code := u.code)
    requires InProgress(u, b.carried, b.generation != t.generation) && NeedIn(u.phase) == Free
    ensures BookOk(b, Some(u))
  {
    hide HistoryOk, PressesOk, AppliesOk, Stories, KeysOnly, Deeds, HandOf, NeedOf, AllExcused, Meanings, InProgress;
    ExcusesStay(b.log, b.generation, b.generation, b.history, t, u);
  }

  /** The record of a task that ends closes its part of the log. */
  lemma FinishOk(b: Book, t: Task, cancelled: bool)
    requires BookOk(b, Some(t)) && t.phase == Next && (!cancelled ==> b.carried == |t.events|)
    requires cancelled <==> b.generation != t.generation
    ensures BookOk(b.(log := b.log + [if t.script then PlaybackFinished else Highlight(-1)], playing := false,
                      history := b.history + [RecordOf(t, b.carried, cancelled)]), None)
  {
    hide Stories, Progress, KeysOnly, Deeds, HandOf, NeedOf, AllExcused, Meanings, HistoryOk;
    var last := if t.script then PlaybackFinished else Highlight(-1);
    var r := RecordOf(t, b.carried, cancelled);
    Logged(b.log, last);
    ExcusesRecorded(b.log, b.generation, b.history, t, r);
    OneMoreExcused(b.log, last, b.generation, b.history + [r], None);
    Ended(b.script, b.history, r);
    StoryIs(t, b.carried, r, DeedOf(last));
    Associates(Stories(b.script, b.history), Progress(t, b.carried), DeedOf(last));
    assert Deeds(b.log + [last]) == Stories(b.script, b.history + [r]) + [];
  }

  lemma StoryIs(t: Task, carried: nat, r: Record, last: seq<Deed>)
    requires carried <= |t.events| && t.phase == Next && r.events == t.events && r.carried == carried
    requires last == if t.script then [Finished] else []
    ensures Progress(t, carried) + last == Story(t.script, r)
  {
    hide Meanings;
  }

  lemma DropOk(b: Book, t: Task)
    requires BookOk(b, Some(t)) && t.phase == Next && !t.script && b.generation != t.generation
    ensures BookOk(b.(history := b.history + [RecordOf(t, b.carried, true)]), None)
  {
    hide Stories, Progress, KeysOnly, Deeds, HandOf, NeedOf, AllExcused, Meanings, HistoryOk, PressesOk, AppliesOk;
    var r := RecordOf(t, b.carried, true);
    ExcusesRecorded(b.log, b.generation, b.history, t, r);
    Ended(b.script, b.history, r);
    StoryIs(t, b.carried, r, []);
    assert Progress(t, b.carried) + [] == Progress(t, b.carried);
    assert Stories(b.script, b.history + [r]) + [] == Stories(b.script, b.history + [r]);
  }

  lemma StartOk(b: Book, t: Task)
    requires BookOk(b, None) && Posted(t, b.script) && t.generation <= b.generation
    ensures BookOk(b.(carried := 0, playing := t.script, log := if t.script then b.log + [PlaybackStarted] else b.log), Some(t))
  {
    hide HistoryOk, PressesOk, AppliesOk, Stories, Deeds, HandOf, NeedOf, AllExcused, Progress, Meanings, KeysOnly;
    StartProgress(t);
    assert Stories(b.script, b.history) + [] == Stories(b.script, b.history);
    ExcusesWithout(b.log, b.generation, b.generation, b.history, Some(t));
    if t.script {
      OneCallTold(b, PlaybackStarted);
      OneMoreExcused(b.log, PlaybackStarted, b.generation, b.history, Some(t));
    }
  }

  lemma StartProgress(t: Task)
    requires t.phase != Holding
    ensures Progress(t, 0) == if t.script then [Started] else []
  {
    assert t.events[..0] == [];
  }

  /** Events the host is told about as soon as they are reached. */
  predicate IsDirect(e: Event) {
    !e.Key? && !e.Wait? && !e.Reload? && !e.InsertCard?
  }

  function DirectCall(e: Event): Call
    requires IsDirect(e)
  {
    match e
    case FullSpeed => SetFullSpeed(true)
    case RegularSpeed => SetFullSpeed(false)
    case ZeroElapseTime => ZeroElapse
    case ReportElapseTime => ReportElapse
    case Trace(name) => ScriptedTrace(name)
    case ArmCard(card) => CardArmed(card)
    case Control(what) => Controlled(what)
  }

  /** A task as its next event begins. */
  function Begun(t: Task, now: int): Task
    requires t.next < |t.events|
  {
    var v := t.(next := t.next + 1);
    match t.events[t.next]
    case Key(code) => v.(code := code, wake := now, phase := WaitingToPress)
    case Wait(ns) => v.(wake := now + ns, phase := Sleeping)
    case Reload(_) => v.(wake := now, phase := WaitingToApply)
    case InsertCard(_) => v.(wake := now, phase := WaitingToApply)
    case Control(_) => v.(wake := now, phase := WaitingHost)
    case _ => v
  }

  lemma OneCallTold(b: Book, c: Call)
    requires PressesOk(b.script, b.log) && AppliesOk(b.log) && !c.Press? && !c.Release?
    requires c.ApplyReload? || c.CardIn? ==> !c.frozen && c.inLoop
    ensures Deeds(b.log + [c]) == Deeds(b.log) + DeedOf(c) && HandOf(b.log + [c]) == HandOf(b.log)
    ensures NeedOf(b.log + [c]) == NeedAfter(NeedOf(b.log), c)
    ensures PressesOk(b.script, b.log + [c]) && AppliesOk(b.log + [c])
  {
    Logged(b.log, c);
    hide Deeds, HandOf, NeedOf;
  }

  /** An event begins: the host is told at once, or nothing has happened yet. */
  lemma BegunOk(b: Book, t: Task, now: int)
    requires BookOk(b, Some(t)) && t.phase == Next && t.next < |t.events| && b.generation == t.generation
    ensures var e := t.events[t.next];
            var c := if IsDirect(e) then b.(log := b.log + [DirectCall(e)]) else b;
            BookOk(if IsDirect(e) || e.Wait? then c.(carried := b.carried + 1) else c, Some(Begun(t, now)))
  {
    hide HistoryOk, Stories, Deeds, HandOf, NeedOf, AllExcused, PressesOk, AppliesOk, Meanings;
    var e := t.events[t.next];
    var u := Begun(t, now);
    if IsDirect(e) {
      OneCallTold(b, DirectCall(e));
      OneMoreExcused(b.log, DirectCall(e), b.generation, b.history, Some(t));
      ToldOk(b, t, u, b.log + [DirectCall(e)]);
    } else if e.Wait? {
      assert Deeds(b.log) == Deeds(b.log) + Meaning(e);
      ToldOk(b, t, u, b.log);
    } else {
      BeginOk(b, t, u);
    }
  }

  /** What a reload or a card is to the host, with what it had answered. */
  function ApplyCall(e: Event, frozen: bool, inLoop: bool): Call
    requires e.Reload? || e.InsertCard?
  {
    if e.Reload? then ApplyReload(e.stage, frozen, inLoop) else CardIn(e.card, frozen, inLoop)
  }

  lemma AppliedOk(b: Book, t: Task)
    requires BookOk(b, Some(t)) && t.phase == WaitingToApply && t.next > 0
    requires t.events[t.next - 1].Reload? || t.events[t.next - 1].InsertCard?
    ensures var c := ApplyCall(t.events[t.next - 1], false, true);
             BookOk(b.(log := b.log + [c], carried := b.carried + 1), Some(t.(phase := WaitingHost)))
  {
    hide HistoryOk, Stories, Deeds, HandOf, NeedOf, AllExcused, PressesOk, AppliesOk, Meanings;
    var c := ApplyCall(t.events[t.next - 1], false, true);
    OneCallTold(b, c);
    OneMoreExcused(b.log, c, b.generation, b.history, Some(t));
    ToldOk(b, t, t.(phase := WaitingHost), b.log + [c]);
  }

  ghost predicate Served(history: seq<Record>, below: nat) {
    && (forall i, j :: 0 <= i < j < |history| ==> history[i].ticket < history[j].ticket)
    && (forall i :: 0 <= i < |history| ==> history[i].ticket < below)
  }

  /** A task was cut short only by a cancel after its post. */
  ghost predicate CutShort(history: seq<Record>, generation: nat) {
    forall i :: 0 <= i < |history| && history[i].cancelled ==> history[i].generation < generation
  }

  predicate Has(given: seq<seq<Event>>, ticket: nat, events: seq<Event>) {
    ticket < |given| && given[ticket] == events
  }

  /** Tasks play what was posted under their number. */
  ghost predicate Matched(given: seq<seq<Event>>, history: seq<Record>, tasks: seq<Task>) {
    && (forall i :: 0 <= i < |history| ==> Has(given, history[i].ticket, history[i].events))
    && (forall i :: 0 <= i < |tasks| ==> Has(given, tasks[i].ticket, tasks[i].events))
  }

  lemma OneServed(given: seq<seq<Event>>, history: seq<Record>, tasks: seq<Task>, r: Record, below: nat, generation: nat)
    requires Served(history, r.ticket) && r.ticket < below && CutShort(history, generation)
    requires r.cancelled ==> r.generation < generation
    requires Matched(given, history, tasks) && Has(given, r.ticket, r.events)
    ensures Served(history + [r], below) && CutShort(history + [r], generation) && Matched(given, history + [r], tasks)
  {
  }

  ghost predicate Line(tasks: seq<Task>, from: nat, below: nat) {
    && (forall i, j :: 0 <= i < j < |tasks| ==> tasks[i].ticket < tasks[j].ticket)
    && (forall i :: 0 <= i < |tasks| ==> from <= tasks[i].ticket < below)
  }

  /** The first task leaves the queue. */
  lemma FirstLeaves(given: seq<seq<Event>>, history: seq<Record>, tasks: seq<Task>, from: nat, below: nat)
    requires Matched(given, history, tasks) && Served(history, from) && Line(tasks, from, below) && tasks != []
    ensures var n := tasks[0].ticket;
            && Matched(given, history, tasks[1..]) && Has(given, n, tasks[0].events)
            && Served(history, n) && Served(history, n + 1) && Line(tasks[1..], n + 1, below) && n < below
  {
  }

  /** A cancel empties the queue. */
  lemma NoneLeft(given: seq<seq<Event>>, history: seq<Record>, tasks: seq<Task>, generation: nat, later: nat, from: nat, below: nat)
    requires Matched(given, history, tasks) && CutShort(history, generation) && generation <= later
    ensures Matched(given, history, []) && CutShort(history, later) && Line([], from, below)
  {
  }

  /** row × 5 + column of a matrix code, as the keyboard view numbers its keys. */
  function HighlightId(code: nat): int {
    (code / 10 - 1) * 5 + (code % 10 - 1)
  }

  /** Keys of five columns have numbers of their own, row by row. */
  lemma HighlightsApart(row: nat, column: nat, other: nat, another: nat)
    requires 1 <= row && 1 <= column <= 5 && 1 <= other && 1 <= another <= 5
    ensures HighlightId(10 * row + column) == 5 * (row - 1) + (column - 1)
    ensures HighlightId(10 * row + column) == HighlightId(10 * other + another) ==> row == other && column == another
  {
    assert (10 * row + column) / 10 == row && (10 * other + another) / 10 == other;
  }

  /** What a look shows: whether the machine is frozen, whether it is in its scan loop, and whether the host is busy. */
  datatype Sight = Sight(frozen: bool, inLoop: bool, pending: bool)

  datatype Outcome = Again | Until(wake: int) | Over

  /** How an event begins: what the host is told, and what the task waits for. */
  predicate BeginsEvent(t: Task, now: int, u: Task, before: seq<Call>, after: seq<Call>) {
    && t.next < |t.events| && u == t.(next := t.next + 1, phase := u.phase, wake := u.wake, code := u.code)
    && match t.events[t.next]
       case Key(code) => u.phase == WaitingToPress && u.code == code && u.wake == now && after == before
       case Wait(ns) => u.phase == Sleeping && u.wake == now + ns && after == before
       case FullSpeed => u.phase == Next && after == before + [SetFullSpeed(true)]
       case RegularSpeed => u.phase == Next && after == before + [SetFullSpeed(false)]
       case ZeroElapseTime => u.phase == Next && after == before + [ZeroElapse]
       case ReportElapseTime => u.phase == Next && after == before + [ReportElapse]
       case Trace(name) => u.phase == Next && after == before + [ScriptedTrace(name)]
       case Reload(_) => u.phase == WaitingToApply && u.wake == now && after == before
       case InsertCard(_) => u.phase == WaitingToApply && u.wake == now && after == before
       case ArmCard(card) => u.phase == Next && after == before + [CardArmed(card)]
       case Control(what) => u.phase == WaitingHost && u.wake == now && after == before + [Controlled(what)]
  }

  /** A task that sleeps began its Wait at `now`, and sleeps for all of it. */
  predicate SleepsFrom(t: Task, now: int) {
    t.phase == Sleeping ==> 0 < t.next <= |t.events| && var e := t.events[t.next - 1]; e.Wait? && t.wake == now + e.ns
  }

  /** A key is held 100 ms at most, and a poll comes 1.5 ms after the last look at most. */
  predicate InTime(t: Task, now: int) {
    match t.phase
    case Holding => t.wake <= now + HOLD
    case Sleeping => true
    case Next => true
    case _ => t.wake <= now + SCAN_POLL
  }

  /** In the middle of a Wait. */
  predicate Asleep(t: Task, now: int) { t.phase == Sleeping && now < t.wake }

  class Lane {
    const script: bool
    /** What each look will show, in turn: anything. */
    const host: nat -> Sight
    var looks: nat
    var generation: nat
    var tasks: seq<Task>
    var current: Option<Task>
    var playing: bool
    /** Everything this lane has told the host. */
    var log: seq<Call>
    ghost var carried: nat
    ghost var history: seq<Record>
    /** Tasks are numbered as they are posted; every number below `served` has left the queue. */
    var posts: nat
    /** What was posted, in order. */
    ghost var given: seq<seq<Event>>
    ghost var served: nat
    /** Tasks cancelled while they were queued. */
    ghost var dropped: nat

    constructor (script: bool, host: nat -> Sight)
      ensures Valid() && this.script == script && this.host == host && looks == 0 && log == [] && history == [] && tasks == [] && current == None
    {
      this.script, this.host, looks := script, host, 0;
      generation, tasks, current, playing, log := 0, [], None, false, [];
      carried, history, posts, given, served, dropped := 0, [], 0, [], 0, 0;
    }

    ghost predicate TasksOk()
      reads this`tasks, this`generation
    {
      forall i :: 0 <= i < |tasks| ==> Posted(tasks[i], script) && tasks[i].generation <= generation
    }

    ghost function Account(): Book
      reads this`generation, this`playing, this`log, this`carried, this`history
    {
      Book(script, generation, playing, log, carried, history)
    }

    ghost predicate LogOk(t: Option<Task>)
      reads this`generation, this`playing, this`log, this`carried, this`history
    {
      BookOk(Account(), t)
    }

    /** Tasks run in the order they were posted, each once; only a cancel after the post drops or cuts one short. */
    ghost predicate InOrder(t: Option<Task>)
      reads this`generation, this`tasks, this`history, this`posts, this`given, this`served, this`dropped
    {
      InLine(t) && Fresh()
    }

    /** No task in the queue has been cancelled: a cancel empties it. */
    ghost predicate Fresh()
      reads this`generation, this`tasks
    {
      forall i :: 0 <= i < |tasks| ==> tasks[i].generation == generation
    }

    ghost predicate InLine(t: Option<Task>)
      reads this`generation, this`tasks, this`history, this`posts, this`given, this`served, this`dropped
    {
      && posts == |history| + (if t.Some? then 1 else 0) + |tasks| + dropped && (generation == 0 ==> dropped == 0)
      && Served(history, if t.Some? then t.value.ticket else served)
      && (t.Some? ==> t.value.ticket < served && Has(given, t.value.ticket, t.value.events))
      && posts == |given| && Matched(given, history, tasks)
      && served <= posts && Line(tasks, served, posts)
      && CutShort(history, generation)
    }

    /** The log and the history only grow; without a cancel no task is dropped. */
    twostate predicate Grew()
      reads this
    {
      && old(log) <= log && old(history) <= history && generation >= old(generation) && |tasks| <= old(|tasks|)
      && (generation == old(generation) ==> dropped == old(dropped))
    }

    /** The host is told nothing and no event is carried out. */
    twostate predicate Nothing()
      reads this
    {
      log == old(log) && carried == old(carried) && history == old(history)
    }

    ghost predicate Valid()
      reads this
    {
      TasksOk() && LogOk(current) && InOrder(current) && (current.Some? ==> current.value.phase != Next)
    }

    // -------------------------------------------------------------- host and queue

    /** A look at the machine and the host; what they show next time is their own affair. */
    method Look() returns (seen: Sight)
      modifies this`looks
      ensures seen == host(old(looks)) && looks == old(looks) + 1
    {
      seen := host(looks);
      looks := looks + 1;
    }

    /** Whether the task is cancelled by now; cancels may have come in since it was last asked. */
    method Cancelled(t: Task) returns (r: bool)
      requires TasksOk() && LogOk(Some(t)) && InOrder(Some(t))
      modifies this`generation, this`tasks, this`dropped
      ensures TasksOk() && LogOk(Some(t)) && InOrder(Some(t)) && generation >= old(generation)
      ensures r == (generation != t.generation) && (old(generation) != t.generation ==> r)
      ensures Grew() && log == old(log) && history == old(history)
    {
      hide BookOk, Posted, Served, Line, CutShort, Matched;
      var cancels: int :| 0 <= cancels;
      OfThisLane(t);
      if cancels > 0 {
        CancelOk(Account(), Some(t), generation + cancels);
        NoneLeft(given, history, tasks, generation, generation + cancels, served, posts);
        generation, dropped, tasks := generation + cancels, dropped + |tasks|, [];
      }
      r := generation != t.generation;
    }

    method Post(events: seq<Event>)
      requires Valid() && (!script ==> KeysOnly(events))
      modifies this`tasks, this`posts, this`given
      ensures Valid() && given == old(given) + [events] && posts == old(posts) + 1
      ensures tasks == old(tasks) + [Task(old(posts), events, script, generation, 0, Next, 0, 0)]
    {
      hide Lane.LogOk, CutShort, Served;
      posts, given := posts + 1, given + [events];
      tasks := tasks + [Task(posts - 1, events, script, generation, 0, Next, 0, 0)];
    }

    method Cancel()
      requires Valid()
      modifies this`generation, this`tasks, this`dropped
      ensures Valid() && tasks == [] && generation == old(generation) + 1 && dropped == old(dropped + |tasks|)
      ensures current.Some? ==> current.value.generation != generation
    {
      hide BookOk, Posted, Served, Line, CutShort, Matched;
      CancelOk(Account(), current, generation + 1);
      NoneLeft(given, history, tasks, generation, generation + 1, served, posts);
      if current.Some? {
        OfThisLane(current.value);
      }
      generation, dropped, tasks := generation + 1, dropped + |tasks|, [];
    }

    // -------------------------------------------------------------- one task

    method Tell(c: Call)
      modifies this`log
      ensures log == old(log) + [c]
    {
      log := log + [c];
    }

    /** Not in the scan loop yet: look again 1.5 ms after the last look. */
    method Poll(t: Task, now: int) returns (u: Task)
      ensures u == t.(wake := if now >= t.wake then now + SCAN_POLL else t.wake)
    {
      u := if now >= t.wake then t.(wake := now + SCAN_POLL) else t;
    }

    /** A turn of a task at `now`: the task goes on at once, waits, or is over. */
    ghost predicate TurnOk(t: Task, now: int, o: Outcome, u: Task)
      reads this
    {
      && TasksOk()
      && (o.Over? ==> LogOk(None) && InOrder(None))
      && (!o.Over? ==> LogOk(Some(u)) && InOrder(Some(u)) && u.events == t.events && u.generation == t.generation)
      && (o.Until? ==> u.phase != Next && o.wake == u.wake && o.wake > now)
      && (o.Over? || u == t || SleepsFrom(u, now))
      && (InTime(t, now) && !o.Over? ==> InTime(u, now))
      && (o.Again? ==> |u.events| - u.next < |t.events| - t.next ||
                       (u.next == t.next && Rank(u.phase) < Rank(t.phase)))
    }

    /** One look was made, and showed this. */
    twostate predicate Saw(frozen: bool, inLoop: bool)
      reads this
    {
      looks == old(looks) + 1 && frozen == host(old(looks)).frozen && inLoop == host(old(looks)).inLoop
    }

    /** A tap: dropped if cancelled, pressed if the machine as it answered lets it, else looked at again. */
    method TurnToPress(t: Task, now: int) returns (o: Outcome, u: Task, frozen: bool, inLoop: bool)
      requires TasksOk() && LogOk(Some(t)) && InOrder(Some(t)) && t.phase == WaitingToPress
      modifies this`looks, this`generation, this`tasks, this`dropped, this`log
      ensures TurnOk(t, now, o, u) && Grew()
      ensures if generation == t.generation then Saw(frozen, inLoop) else !frozen && !inLoop && looks == old(looks)
      ensures generation != t.generation ==> o == Again && u == t.(phase := Next) && log == old(log)
      ensures generation == t.generation && MayPress(t.script, frozen, inLoop) ==>
                && o == Until(now + HOLD) && u == t.(wake := now + HOLD, phase := Holding)
                && log == old(log) + (if t.script then [] else [Highlight(HighlightId(t.code))])
                          + [Press(t.code, now, frozen, inLoop)]
      ensures generation == t.generation && !MayPress(t.script, frozen, inLoop) ==>
                o == Until(u.wake) && u == t.(wake := if now >= t.wake then now + SCAN_POLL else t.wake) && log == old(log)
    {
      hide Lane.TasksOk, Lane.InOrder, BookOk;
      frozen, inLoop := false, false;
      var cancelled := Cancelled(t);
      if cancelled {
        ToNextOk(Account(), t);
        KeepsPlace(t, t.(phase := Next));
        return Again, t.(phase := Next), frozen, inLoop;
      }
      var seen := Look();
      frozen, inLoop := seen.frozen, seen.inLoop;
      if if t.script then !frozen && inLoop else frozen || inLoop {
        if !t.script {
          HighlightOk(Account(), Some(t), HighlightId(t.code));
          Tell(Highlight(HighlightId(t.code)));
        }
        OfThisLane(t);
        PressOk(Account(), t, now, frozen, inLoop);
        Tell(Press(t.code, now, frozen, inLoop));
        u := t.(wake := now + HOLD, phase := Holding);
        KeepsPlace(t, u);
        return Until(u.wake), u, frozen, inLoop;
      }
      u := Poll(t, now);
      RewakeOk(Account(), t, u.wake);
      KeepsPlace(t, u);
      return Until(u.wake), u, frozen, inLoop;
    }

    method TurnHolding(t: Task, now: int) returns (o: Outcome, u: Task)
      requires TasksOk() && LogOk(Some(t)) && InOrder(Some(t)) && t.phase == Holding
      modifies this`log, this`carried
      ensures TurnOk(t, now, o, u) && tasks == old(tasks) && Grew()
      ensures now < t.wake ==> o == Until(t.wake) && u == t && Nothing()
      ensures now >= t.wake ==> o == Again && u == t.(phase := WaitingIdle)
                                && log == old(log) + [Release(t.code, now)] && carried == old(carried) + 1
    {
      hide Lane.TasksOk, Lane.InOrder, BookOk;
      if now < t.wake {
        return Until(t.wake), t;
      }
      ReleaseOk(Account(), t, now);
      KeepsPlace(t, t.(phase := WaitingIdle));
      Tell(Release(t.code, now));
      carried := carried + 1;
      return Again, t.(phase := WaitingIdle);
    }

    /** After a key: on to the next event once cancelled, frozen or back in the scan loop, else another look. */
    method TurnIdle(t: Task, now: int) returns (o: Outcome, u: Task, frozen: bool, inLoop: bool)
      requires TasksOk() && LogOk(Some(t)) && InOrder(Some(t)) && t.phase == WaitingIdle
      modifies this`looks, this`generation, this`tasks, this`dropped, this`log
      ensures TurnOk(t, now, o, u) && Grew()
      ensures if generation == t.generation then Saw(frozen, inLoop) else !frozen && !inLoop && looks == old(looks)
      ensures log == old(log) + [SawIdle(t.ticket, generation != t.generation, frozen, inLoop)]
      ensures generation != t.generation || frozen || inLoop ==> o == Again && u == t.(phase := Next)
      ensures generation == t.generation && !frozen && !inLoop ==>
                o == Until(u.wake) && u == t.(wake := if now >= t.wake then now + SCAN_POLL else t.wake)
    {
      hide Lane.TasksOk, Lane.InOrder, BookOk;
      InPhase(t);
      frozen, inLoop := false, false;
      var cancelled := Cancelled(t);
      if !cancelled {
        var seen := Look();
        frozen, inLoop := seen.frozen, seen.inLoop;
      }
      SeenOk(Account(), t, SawIdle(t.ticket, cancelled, frozen, inLoop));
      Tell(SawIdle(t.ticket, cancelled, frozen, inLoop));
      if cancelled || frozen || inLoop {
        KeepsPlace(t, t.(phase := Next));
        return Again, t.(phase := Next), frozen, inLoop;
      }
      u := Poll(t, now);
      RewakeOk(Account(), t, u.wake);
      KeepsPlace(t, u);
      return Until(u.wake), u, frozen, inLoop;
    }

    /** A Wait is slept through to its end, unless it is cancelled. */
    method TurnSleeping(t: Task, now: int) returns (o: Outcome, u: Task)
      requires TasksOk() && LogOk(Some(t)) && InOrder(Some(t)) && t.phase == Sleeping
      modifies this`generation, this`tasks, this`dropped
      ensures TurnOk(t, now, o, u) && Grew()
      ensures Asleep(t, now) && generation == t.generation ==> o == Until(t.wake) && u == t
      ensures !Asleep(t, now) || generation != t.generation ==> o == Again && u == t.(phase := Next)
    {
      hide Lane.TasksOk, Lane.InOrder, BookOk;
      InPhase(t);
      if now < t.wake {
        var cancelled := Cancelled(t);
        if !cancelled {
          return Until(t.wake), t;
        }
      }
      ToNextOk(Account(), t);
      KeepsPlace(t, t.(phase := Next));
      return Again, t.(phase := Next);
    }

    /** A reload or a card: dropped if cancelled, handed over if the machine runs its scan loop, else looked at again. */
    method TurnToApply(t: Task, now: int) returns (o: Outcome, u: Task, frozen: bool, inLoop: bool)
      requires TasksOk() && LogOk(Some(t)) && InOrder(Some(t)) && t.phase == WaitingToApply
      modifies this`looks, this`generation, this`tasks, this`dropped, this`log, this`carried
      ensures TurnOk(t, now, o, u) && Grew()
      ensures if generation == t.generation then Saw(frozen, inLoop) else !frozen && !inLoop && looks == old(looks)
      ensures generation != t.generation ==> o == Again && u == t.(phase := Next) && Nothing()
      ensures generation == t.generation && !frozen && inLoop ==> o == Again && HandsOver(t, u)
      ensures generation == t.generation && (frozen || !inLoop) ==>
                o == Until(u.wake) && u == t.(wake := if now >= t.wake then now + SCAN_POLL else t.wake) && Nothing()
    {
      hide Lane.TasksOk, Lane.InOrder, BookOk;
      frozen, inLoop := false, false;
      InPhase(t);
      var cancelled := Cancelled(t);
      if cancelled {
        ToNextOk(Account(), t);
        KeepsPlace(t, t.(phase := Next));
        return Again, t.(phase := Next), frozen, inLoop;
      }
      var seen := Look();
      frozen, inLoop := seen.frozen, seen.inLoop;
      if frozen || !inLoop {
        u := Poll(t, now);
        RewakeOk(Account(), t, u.wake);
        KeepsPlace(t, u);
        return Until(u.wake), u, frozen, inLoop;
      }
      u := Deliver(t, frozen, inLoop);
      return Again, u, frozen, inLoop;
    }

    /** The reload or the card of the event was told, and the host is waited for. */
    twostate predicate HandsOver(t: Task, u: Task)
      reads this
    {
      && u == t.(phase := WaitingHost) && carried == old(carried) + 1 && 0 < t.next <= |t.events|
      && match t.events[t.next - 1]
         case Reload(stage) => log == old(log) + [ApplyReload(stage, false, true)]
         case InsertCard(card) => log == old(log) + [CardIn(card, false, true)]
         case _ => false
    }

    /** The machine is in its loop: the reload or the card goes to the host. */
    method Deliver(t: Task, frozen: bool, inLoop: bool) returns (u: Task)
      requires TasksOk() && LogOk(Some(t)) && InOrder(Some(t)) && t.phase == WaitingToApply && !frozen && inLoop
      modifies this`log, this`carried
      ensures TasksOk() && LogOk(Some(u)) && InOrder(Some(u)) && Grew() && HandsOver(t, u)
    {
      hide Lane.TasksOk, Lane.InOrder, BookOk;
      InPhase(t);
      var e := t.events[t.next - 1];
      u := t.(phase := WaitingHost);
      AppliedOk(Account(), t);
      KeepsPlace(t, u);
      Tell(if e.Reload? then ApplyReload(e.stage, frozen, inLoop) else CardIn(e.card, frozen, inLoop));
      carried := carried + 1;
    }

    /** After a reload, a card or a control: on to the next event once cancelled or the host is done, else another look. */
    method TurnHost(t: Task, now: int) returns (o: Outcome, u: Task, pending: bool)
      requires TasksOk() && LogOk(Some(t)) && InOrder(Some(t)) && t.phase == WaitingHost
      modifies this`looks, this`generation, this`tasks, this`dropped, this`log
      ensures TurnOk(t, now, o, u) && Grew()
      ensures if generation == t.generation then looks == old(looks) + 1 && pending == host(old(looks)).pending
              else !pending && looks == old(looks)
      ensures log == old(log) + [SawHost(t.ticket, generation != t.generation, pending)]
      ensures generation != t.generation || !pending ==> o == Again && u == t.(phase := Next)
      ensures generation == t.generation && pending ==>
                o == Until(u.wake) && u == t.(wake := if now >= t.wake then now + SCAN_POLL else t.wake)
    {
      hide Lane.TasksOk, Lane.InOrder, BookOk;
      InPhase(t);
      pending := false;
      var cancelled := Cancelled(t);
      if !cancelled {
        var seen := Look();
        pending := seen.pending;
      }
      SeenOk(Account(), t, SawHost(t.ticket, cancelled, pending));
      Tell(SawHost(t.ticket, cancelled, pending));
      if cancelled || !pending {
        KeepsPlace(t, t.(phase := Next));
        return Again, t.(phase := Next), pending;
      }
      u := Poll(t, now);
      RewakeOk(Account(), t, u.wake);
      KeepsPlace(t, u);
      return Until(u.wake), u, pending;
    }

    /** The task ends: a script reports it, a keyboard sequence that ran out clears the highlight. */
    method Finish(t: Task, ghost cancelled: bool)
      requires TasksOk() && LogOk(Some(t)) && InOrder(Some(t)) && t.phase == Next
      requires !cancelled ==> carried == |t.events|
      requires cancelled <==> generation != t.generation
      modifies this`log, this`playing, this`history
      ensures TasksOk() && LogOk(None) && InOrder(None) && tasks == old(tasks) && Grew()
      ensures log == old(log) + [if t.script then PlaybackFinished else Highlight(-1)]
    {
      hide BookOk, Posted, Served, Line, CutShort, Matched;
      OfThisLane(t);
      FinishOk(Account(), t, cancelled);
      OneServed(given, history, tasks, RecordOf(t, carried, cancelled), served, generation);
      if t.script {
        playing := false;
        Tell(PlaybackFinished);
      } else {
        Tell(Highlight(-1));
      }
      history := history + [RecordOf(t, carried, cancelled)];
    }

    /** A keyboard sequence cancelled before its last tap just stops. */
    method Drop(t: Task)
      requires TasksOk() && LogOk(Some(t)) && InOrder(Some(t)) && t.phase == Next && !t.script && generation != t.generation
      modifies this`history
      ensures TasksOk() && LogOk(None) && InOrder(None) && tasks == old(tasks) && Grew()
    {
      OfThisLane(t);
      DropOk(Account(), t);
      hide BookOk, Posted, Served, Line, CutShort, Matched;
      OneServed(given, history, tasks, RecordOf(t, carried, true), served, generation);
      history := history + [RecordOf(t, carried, true)];
    }

    /** A task that ran out, or was cancelled, is over; else its next event begins. */
    method TurnNext(t: Task, now: int) returns (o: Outcome, u: Task)
      requires TasksOk() && LogOk(Some(t)) && InOrder(Some(t)) && t.phase == Next
      modifies this`generation, this`tasks, this`dropped, this`log, this`carried, this`playing, this`history
      ensures TurnOk(t, now, o, u) && Grew()
      ensures t.next == |t.events| || generation != t.generation ==>
                o == Over && log == old(log) + (if t.script then [PlaybackFinished]
                                                else if t.next == |t.events| then [Highlight(-1)] else [])
      ensures t.next < |t.events| && generation == t.generation ==> o == Again && BeginsEvent(t, now, u, old(log), log)
    {
      hide Lane.TasksOk, Lane.InOrder, BookOk, BeginsEvent;
      var cancelled := Cancelled(t);
      InPhase(t);
      if t.next == |t.events| || (t.script && cancelled) {
        Finish(t, cancelled);
        return Over, t;
      }
      if cancelled {
        Drop(t);
        return Over, t;
      }
      o, u := TurnEvent(t, now);
    }

    /**
     The next event begins: the host is told at once, a Wait sleeps for its time, and a key, a
     reload, a card or a control waits for its condition, which is looked at first at `now`.
     */
    method TurnEvent(t: Task, now: int) returns (o: Outcome, u: Task)
      requires TasksOk() && LogOk(Some(t)) && InOrder(Some(t)) && t.phase == Next && t.next < |t.events| && generation == t.generation
      modifies this`log, this`carried
      ensures TurnOk(t, now, o, u) && tasks == old(tasks) && Grew()
      ensures o == Again && BeginsEvent(t, now, u, old(log), log)
    {
      hide Lane.TasksOk, Lane.InOrder, BookOk;
      InPhase(t);
      var e := t.events[t.next];
      BegunOk(Account(), t, now);
      KeepsPlace(t, Begun(t, now));
      match e {
      case FullSpeed => Tell(SetFullSpeed(true));
      case RegularSpeed => Tell(SetFullSpeed(false));
      case ZeroElapseTime => Tell(ZeroElapse);
      case ReportElapseTime => Tell(ReportElapse);
      case Trace(name) => Tell(ScriptedTrace(name));
      case ArmCard(card) => Tell(CardArmed(card));
      case Control(what) => Tell(Controlled(what));
      case _ =>
      }
      if IsDirect(e) || e.Wait? {
        carried := carried + 1;
      }
      return Again, Begun(t, now);
    }

    method Turn(t: Task, now: int) returns (o: Outcome, u: Task)
      requires TasksOk() && LogOk(Some(t)) && InOrder(Some(t))
      modifies this`looks, this`generation, this`tasks, this`dropped, this`log, this`carried, this`playing, this`history
      ensures TurnOk(t, now, o, u) && Grew()
      ensures Asleep(t, now) && generation == t.generation ==> o == Until(t.wake) && u == t && Nothing()
      ensures t.phase == WaitingIdle || t.phase == WaitingHost ==> |log| > old(|log|)
    {
      hide Lane.TasksOk, Lane.InOrder, BookOk;
      match t.phase
      case Next => o, u := TurnNext(t, now);
      case WaitingToPress =>
        var frozen, inLoop;
        o, u, frozen, inLoop := TurnToPress(t, now);
      case Holding => o, u := TurnHolding(t, now);
      case WaitingIdle =>
        var frozen, inLoop;
        o, u, frozen, inLoop := TurnIdle(t, now);
      case Sleeping => o, u := TurnSleeping(t, now);
      case WaitingToApply =>
        var frozen, inLoop;
        o, u, frozen, inLoop := TurnToApply(t, now);
      case WaitingHost =>
        var pending;
        o, u, pending := TurnHost(t, now);
    }

    /** A script announces itself when its first step begins. */
    method Start(t: Task)
      requires TasksOk() && LogOk(None) && Taken(t) && Fresh() && Posted(t, script)
      requires t.generation <= generation && t.ticket < served && Served(history, t.ticket)
      modifies this`log, this`carried, this`playing
      ensures TasksOk() && LogOk(Some(t)) && InOrder(Some(t)) && tasks == old(tasks) && Grew()
    {
      hide Lane.TasksOk, Lane.Taken, Lane.InOrder, Lane.Fresh, BookOk, Posted, Served;
      assert !playing by {
        Resting();
      }
      StartOk(Account(), t);
      TakesPlace(t);
      carried := 0;
      if t.script {
        playing := true;
        Tell(PlaybackStarted);
      }
    }

    /**
     A task runs at `now` until it waits or is over; a wait is always for a later time. Each
     turn of the loop brings it on: fewer events left, or a later phase of the same event.
     */
    method Step(t: Task, now: int) returns (wake: Option<int>, u: Task)
      requires TasksOk() && LogOk(Some(t)) && InOrder(Some(t))
      modifies this`looks, this`generation, this`tasks, this`dropped, this`log, this`carried, this`playing, this`history
      ensures TasksOk() && Grew()
      ensures wake.None? ==> LogOk(None) && InOrder(None)
      ensures wake.Some? ==> LogOk(Some(u)) && InOrder(Some(u)) && u.phase != Next && wake.value == u.wake > now
      ensures wake.Some? ==> u == t || SleepsFrom(u, now)
      ensures Asleep(t, now) && generation == t.generation ==> wake == Some(t.wake) && u == t && Nothing()
      ensures wake.Some? && InTime(t, now) ==> InTime(u, now)
      ensures t.phase == WaitingIdle || t.phase == WaitingHost ==> |log| > old(|log|)
    {
      hide Lane.TasksOk, Lane.InOrder, BookOk;
      u := t;
      InPhase(u);
      OfThisLane(u);
      while true
        invariant TasksOk() && LogOk(Some(u)) && InOrder(Some(u)) && Grew() && u.next <= |u.events|
        invariant u.generation == t.generation <= old(generation) && (u == t || SleepsFrom(u, now))
        invariant Asleep(t, now) && generation == t.generation ==> u == t && Nothing()
        invariant InTime(t, now) ==> InTime(u, now)
        invariant u == t || (t.phase == WaitingIdle || t.phase == WaitingHost ==> |log| > old(|log|))
        decreases |u.events| - u.next, Rank(u.phase)
      {
        var o, v := Turn(u, now);
        match o
        case Over => return None, v;
        case Until(w) => return Some(w), v;
        case Again =>
          InPhase(v);
          u := v;
      }
    }

    /** The next task that was not cancelled while it waited. */
    method TakeNext() returns (t: Option<Task>)
      requires TasksOk() && LogOk(None) && InLine(None)
      modifies this`tasks, this`served, this`dropped
      ensures TasksOk() && LogOk(None) && |tasks| <= old(|tasks|)
      ensures old(Fresh()) ==> Fresh() && dropped == old(dropped)
      ensures t.None? ==> tasks == [] && InLine(None)
      ensures t.Some? ==> Posted(t.value, script) && t.value.generation == generation && |tasks| < old(|tasks|)
                          && t.value.ticket < served && Served(history, t.value.ticket) && Taken(t.value)
    {
      hide Lane.LogOk, Posted, Served, Line, CutShort, Matched;
      while tasks != []
        invariant TasksOk() && LogOk(None) && InLine(None) && |tasks| <= old(|tasks|)
        invariant old(Fresh()) ==> Fresh() && dropped == old(dropped)
        decreases |tasks|
      {
        var first := tasks[0];
        FirstLeaves(given, history, tasks, served, posts);
        tasks := tasks[1..];
        served := first.ticket + 1;
        if first.generation == generation {
          return Some(first);
        }
        dropped := dropped + 1;
      }
      return None;
    }

    /** The line behind a task just taken. */
    ghost predicate Taken(t: Task)
      reads this
    {
      && Has(given, t.ticket, t.events) && posts == |given| && Matched(given, history, tasks)
      && posts == |history| + 1 + |tasks| + dropped && (generation == 0 ==> dropped == 0)
      && served <= posts && Line(tasks, served, posts)
      && CutShort(history, generation)
    }

    /** Runs what is due at `now`; when the task in progress next wants to run, None when idle. */
    method Advance(now: int) returns (wake: Option<int>)
      requires Valid()
      modifies this`looks, this`generation, this`tasks, this`dropped, this`log, this`carried, this`playing, this`history, this`current, this`served
      ensures Valid() && Grew()
      ensures wake.Some? ==> current.Some? && wake.value == current.value.wake > now
      ensures wake.None? ==> current.None? && tasks == []
      // an uncancelled Wait lasts its time: a task goes to sleep for all of it, and until it is over nothing happens
      ensures wake.Some? ==> current == old(current) || SleepsFrom(current.value, now)
      ensures old(current.Some? && Asleep(current.value, now)) && generation == old(current.value.generation) ==>
                current == old(current) && Nothing()
      // the wait is 100 ms at most for a held key and 1.5 ms at most for the machine, which every advance looks at
      ensures wake.Some? && old(current.Some? ==> InTime(current.value, now)) ==> InTime(current.value, now)
      ensures old(current.Some? && (current.value.phase == WaitingIdle || current.value.phase == WaitingHost)) ==>
                |log| > old(|log|)
    {
      hide Lane.TasksOk, Lane.InOrder, BookOk;
      if current.Some? {
        OfThisLane(current.value);
      }
      while true
        invariant Valid() && Grew() && (current == old(current) || current.None?)
        invariant old(current.Some? && Asleep(current.value, now)) && generation == old(current.value.generation) ==>
                    current == old(current) && Nothing()
        invariant current == old(current) ||
                  (old(current.Some? && (current.value.phase == WaitingIdle || current.value.phase == WaitingHost)) ==>
                     |log| > old(|log|))
        decreases |tasks| + (if current.Some? then 1 else 0)
      {
        var t := NextTask();
        if t.None? {
          return None;
        }
        var u: Task;
        wake, u := Step(t.value, now);
        current := if wake.Some? then Some(u) else None;
        if wake.Some? {
          return;
        }
      }
    }

    /** The task in progress, or else the next one, begun. */
    method NextTask() returns (t: Option<Task>)
      requires Valid()
      modifies this`tasks, this`served, this`dropped, this`log, this`carried, this`playing
      ensures TasksOk() && InOrder(t) && LogOk(t) && Grew()
      ensures t.None? ==> tasks == [] && current.None?
      ensures current.Some? ==> t == current && log == old(log) && carried == old(carried)
      ensures current.None? && t.Some? ==> t.value.phase == Next
      ensures t.Some? ==> |tasks| < old(|tasks|) + (if current.Some? then 1 else 0)
    {
      hide BookOk, Served, Line, CutShort, Matched;
      t := current;
      if t.None? {
        t := TakeNext();
        if t.Some? {
          Start(t.value);
        }
      }
    }

    lemma Resting()
      requires LogOk(None)
      ensures !playing
    {
      hide HistoryOk, PressesOk, AppliesOk, Deeds, Stories, HandOf, NeedOf, AllExcused;
    }

    lemma TakesPlace(t: Task)
      requires Taken(t) && Fresh() && t.ticket < served && Served(history, t.ticket)
      ensures InOrder(Some(t))
    {
      hide Lane.Fresh, Line, CutShort, Served, Matched;
    }

    /** A task's place in the order is its number and what it plays. */
    lemma KeepsPlace(t: Task, u: Task)
      requires InOrder(Some(t)) && u.ticket == t.ticket && u.events == t.events
      ensures InOrder(Some(u))
    {
      hide Served, Line, CutShort, Matched;
    }

    lemma OfThisLane(t: Task)
      requires LogOk(Some(t))
      ensures t.script == script && t.generation <= generation && playing == script
    {
      hide HistoryOk, PressesOk, AppliesOk, Deeds, Stories, Progress, HandOf, NeedOf, AllExcused, InProgress;
    }

    /** Where a task in progress stands. */
    lemma InPhase(t: Task)
      requires LogOk(Some(t))
      ensures t.script == script && carried <= t.next <= |t.events| && t.next <= carried + 1
      ensures t.phase == WaitingIdle || t.phase == Sleeping || t.phase == WaitingHost ==> carried == t.next
      ensures t.phase == Next && generation == t.generation ==> carried == t.next
      ensures t.phase == WaitingToApply ==>
                carried + 1 == t.next && (t.events[carried].Reload? || t.events[carried].InsertCard?)
    {
      hide HistoryOk, PressesOk, AppliesOk, Deeds, Stories, Progress, HandOf, NeedOf, AllExcused, KeysOnly;
    }
  }

  // ---------------------------------------------------------------- what every run's log says

  predicate IsKeyCall(c: Call) { c.Press? || c.Release? }

  /** The release that answers a press: the next key call, of the same key, at least 100 ms later. */
  ghost predicate Answers(log: seq<Call>, i: nat, j: nat) {
    && i < j < |log| && log[i].Press? && log[j].Release?
    && log[j].code == log[i].code && log[j].at >= log[i].at + HOLD
    && forall k :: i < k < j ==> !IsKeyCall(log[k])
  }

  /** In a log that keeps the discipline every press is answered, or is the key still down. */
  lemma {:induction false} PressAnswered(log: seq<Call>, i: nat)
    requires HandOf(log) != Broken && i < |log| && log[i].Press?
    ensures (exists j :: Answers(log, i, j)) ||
            (HandOf(log) == Down(log[i].code, log[i].at) && forall k :: i < k < |log| ==> !IsKeyCall(log[k]))
    decreases |log|
  {
    var n := |log| - 1;
    var before := log[..n];
    if i < n {
      PressAnswered(before, i);
      if j :| Answers(before, i, j) {
        assert Answers(log, i, j);
      } else if log[n].Release? {
        assert Answers(log, i, n);
      }
    }
  }

  /** Every release answers a press. */
  lemma {:induction false} ReleaseAnswers(log: seq<Call>, j: nat)
    requires HandOf(log) != Broken && j < |log| && log[j].Release?
    ensures exists i :: Answers(log, i, j)
    decreases |log|
  {
    var n := |log| - 1;
    var before := log[..n];
    if j < n {
      ReleaseAnswers(before, j);
      var i :| Answers(before, i, j);
      assert Answers(log, i, j);
    } else {
      var i := LastPress(before);
      assert Answers(log, i, n);
    }
  }

  lemma {:induction false} LastPress(log: seq<Call>) returns (i: nat)
    requires HandOf(log).Down?
    ensures i < |log| && log[i].Press? && HandOf(log) == Down(log[i].code, log[i].at)
    ensures forall k :: i < k < |log| ==> !IsKeyCall(log[k])
    decreases |log|
  {
    var n := |log| - 1;
    if log[n].Press? {
      i := n;
    } else {
      i := LastPress(log[..n]);
    }
  }

  /** What a call leaves the host to be asked, and the looks that settle it. */
  function Asks(c: Call): Need {
    if c.Release? then NeedsIdle else if AsksHost(c) then NeedsHost else Free
  }

  predicate Settles(n: Need, c: Call) {
    (n == NeedsIdle && ClearsIdle(c)) || (n == NeedsHost && ClearsHost(c))
  }

  lemma {:induction false} AskedOrSettled(log: seq<Call>, i: nat)
    requires NeedOf(log) != Astray && i < |log| && Asks(log[i]) != Free
    ensures NeedOf(log) == Asks(log[i]) || exists k: nat :: i < k < |log| && Settles(Asks(log[i]), log[k])
    decreases |log|
  {
    var n := |log| - 1;
    if i < n {
      AskedOrSettled(log[..n], i);
      if NeedOf(log[..n]) == Asks(log[i]) && Settles(Asks(log[i]), log[n]) {
        assert i < n < |log|;
      } else if k: nat :| i < k < n && Settles(Asks(log[i]), log[..n][k]) {
        assert Settles(Asks(log[i]), log[k]);
      }
    }
  }

  lemma {:induction false} PrefixKeeps(log: seq<Call>, n: nat)
    requires NeedOf(log) != Astray && n <= |log|
    ensures NeedOf(log[..n]) != Astray
    decreases |log|
  {
    if n < |log| {
      PrefixKeeps(log[..|log| - 1], n);
      assert log[..|log| - 1][..n] == log[..n];
    } else {
      assert log[..n] == log;
    }
  }

  /** Between a call that leaves the host to be asked and the next event there is a look that settles it. */
  lemma SettledBetween(log: seq<Call>, i: nat, j: nat)
    requires NeedOf(log) != Astray && i < j < |log| && Asks(log[i]) != Free
    requires !log[j].Highlight? && !log[j].SawIdle? && !log[j].SawHost?
    ensures exists k: nat :: i < k < j && Settles(Asks(log[i]), log[k])
  {
    PrefixKeeps(log, j + 1);
    PrefixKeeps(log, j);
    assert log[..j + 1][..j] == log[..j];
    AskedOrSettled(log[..j], i);
    hide NeedOf;
    var k: nat :| i < k < j && Settles(Asks(log[i]), log[..j][k]);
    assert log[..j][k] == log[k];
  }

  /** The task of a look was cancelled: it ended so, or is the one in progress and cancelled by now. */
  ghost predicate WasCancelled(l: Lane, ticket: nat)
    reads l
  {
    || (l.current.Some? && l.current.value.ticket == ticket && l.current.value.generation != l.generation)
    || exists i: nat :: i < |l.history| && l.history[i].ticket == ticket && l.history[i].cancelled
  }

  /**
   Over every run of a lane: after a key came up nothing more is told (but for the highlight)
   before a look that found the machine frozen or in its scan loop, or its task cancelled.
   */
  lemma LaneWaitsAfterKey(l: Lane, i: nat, j: nat)
    requires l.Valid() && i < j < |l.log| && l.log[i].Release?
    requires !l.log[j].Highlight? && !l.log[j].SawIdle? && !l.log[j].SawHost?
    ensures exists k: nat :: i < k < j && l.log[k].SawIdle? &&
              (l.log[k].frozen || l.log[k].inLoop || (l.log[k].gone && WasCancelled(l, l.log[k].ticket)))
  {
    hide Stories, Progress, Deeds, HandOf, NeedOf, KeysOnly, InProgress, HistoryOk, PressesOk;
    SettledBetween(l.log, i, j);
    var k: nat :| i < k < j && Settles(Asks(l.log[i]), l.log[k]);
    assert Excused(l.log[k], l.generation, l.history, l.current);
    assert l.log[k].gone ==> WasCancelled(l, l.log[k].ticket);
  }

  /**
   Over every run of a lane: after a reload, a card or a control went to the host nothing more is
   told before a look that found nothing pending, or its task cancelled; and reloads and cards
   went out into a running scan loop.
   */
  lemma LaneWaitsForHost(l: Lane, i: nat, j: nat)
    requires l.Valid() && i < j < |l.log| && (l.log[i].ApplyReload? || l.log[i].CardIn? || l.log[i].Controlled?)
    requires !l.log[j].Highlight? && !l.log[j].SawIdle? && !l.log[j].SawHost?
    ensures exists k: nat :: i < k < j && l.log[k].SawHost? &&
              (!l.log[k].pending || (l.log[k].gone && WasCancelled(l, l.log[k].ticket)))
    ensures !l.log[i].Controlled? ==> !l.log[i].frozen && l.log[i].inLoop
  {
    hide Stories, Progress, Deeds, HandOf, NeedOf, KeysOnly, InProgress, HistoryOk, PressesOk;
    SettledBetween(l.log, i, j);
    var k: nat :| i < k < j && Settles(Asks(l.log[i]), l.log[k]);
    assert Excused(l.log[k], l.generation, l.history, l.current);
    assert l.log[k].gone ==> WasCancelled(l, l.log[k].ticket);
  }

  /** Over every run of a lane: each press is answered or is the key held now, each release answers a press. */
  lemma LaneKeysPaired(l: Lane, i: nat)
    requires l.Valid() && i < |l.log|
    ensures l.log[i].Press? ==>
              (exists j :: Answers(l.log, i, j)) ||
              (l.current.Some? && l.current.value.phase == Holding && l.current.value.code == l.log[i].code)
    ensures l.log[i].Release? ==> exists j :: Answers(l.log, j, i)
  {
    hide Stories, Progress, Deeds, HandOf, KeysOnly, InProgress, HistoryOk, PressesOk, Answers;
    if l.log[i].Press? {
      PressAnswered(l.log, i);
    } else if l.log[i].Release? {
      ReleaseAnswers(l.log, i);
    }
  }

  /** Between playbacks, in one, or neither makes sense. */
  datatype Play = Silent | InPlay | Muddled

  function PlayAfter(p: Play, d: Deed): Play {
    match d
    case Started => if p == Silent then InPlay else Muddled
    case Finished => if p == InPlay then Silent else Muddled
    case _ => p
  }

  function PlayFrom(p: Play, deeds: seq<Deed>): Play
    decreases |deeds|
  {
    if deeds == [] then p else PlayAfter(PlayFrom(p, deeds[..|deeds| - 1]), deeds[|deeds| - 1])
  }

  lemma {:induction false} PlayThrough(p: Play, a: seq<Deed>, b: seq<Deed>)
    ensures PlayFrom(p, a + b) == PlayFrom(PlayFrom(p, a), b)
    decreases |b|
  {
    if b == [] {
      assert a + b == a;
    } else {
      PlayThrough(p, a, b[..|b| - 1]);
      assert (a + b)[..|a + b| - 1] == a + b[..|b| - 1];
    }
  }

  lemma {:induction false} EventsDoNotPlay(p: Play, events: seq<Event>)
    ensures PlayFrom(p, Meanings(events)) == p
    decreases |events|
  {
    if events != [] {
      var e := events[|events| - 1];
      EventsDoNotPlay(p, events[..|events| - 1]);
      PlayThrough(p, Meanings(events[..|events| - 1]), Meaning(e));
      MeaningDoesNotPlay(p, e);
    }
  }

  lemma MeaningDoesNotPlay(p: Play, e: Event)
    ensures PlayFrom(p, Meaning(e)) == p
  {
    var m := Meaning(e);
    if |m| == 2 {
      assert m[..1] == [m[0]];
      assert PlayFrom(p, [m[0]]) == PlayAfter(PlayFrom(p, []), m[0]);
    } else if |m| == 1 {
      assert m[..0] == [];
    }
  }

  lemma OneDeed(p: Play, d: Deed)
    ensures PlayFrom(p, [d]) == PlayAfter(p, d)
  {
    assert [d][..0] == [];
  }

  lemma StoryPlays(script: bool, r: Record)
    requires r.carried <= |r.events|
    ensures PlayFrom(Silent, Story(script, r)) == Silent
  {
    var middle := Meanings(r.events[..r.carried]);
    EventsDoNotPlay(if script then InPlay else Silent, r.events[..r.carried]);
    if script {
      OneDeed(Silent, Started);
      OneDeed(InPlay, Finished);
      PlayThrough(Silent, [Started], middle);
      PlayThrough(Silent, [Started] + middle, [Finished]);
    }
  }

  lemma {:induction false} StoriesPlay(script: bool, history: seq<Record>)
    requires HistoryOk(history)
    ensures PlayFrom(Silent, Stories(script, history)) == Silent
    decreases |history|
  {
    if history != [] {
      var last := history[|history| - 1];
      StoriesPlay(script, history[..|history| - 1]);
      StoryPlays(script, last);
      PlayThrough(Silent, Stories(script, history[..|history| - 1]), Story(script, last));
    }
  }

  lemma ProgressPlays(t: Task, carried: nat)
    requires carried <= |t.events|
    ensures PlayFrom(Silent, Progress(t, carried)) == if t.script then InPlay else Silent
  {
    var p := if t.script then InPlay else Silent;
    var first := if t.script then [Started] else [];
    var middle := Meanings(t.events[..carried]);
    var last := if t.phase == Holding then [KeyDown(t.code)] else [];
    OneDeed(Silent, Started);
    OneDeed(p, KeyDown(t.code));
    EventsDoNotPlay(p, t.events[..carried]);
    PlayThrough(Silent, first, middle);
    PlayThrough(Silent, first + middle, last);
  }

  /**
   Every playbackStarted is followed by its playbackFinished before the next one, cancelled or
   not, and `playing` says which of the two came last.
   */
  lemma PlaybacksPaired(l: Lane)
    requires l.Valid()
    ensures PlayFrom(Silent, Deeds(l.log)) == if l.playing then InPlay else Silent
  {
    hide Stories, Progress, Deeds, PlayFrom, HandOf, KeysOnly;
    StoriesPlay(l.script, l.history);
    if l.current.Some? {
      ProgressPlays(l.current.value, l.carried);
      PlayThrough(Silent, Stories(l.script, l.history), Progress(l.current.value, l.carried));
    } else {
      assert Stories(l.script, l.history) + [] == Stories(l.script, l.history);
    }
  }

  /** Distinct increasing tickets below n, n of them, are 0, 1, ..., n - 1. */
  lemma {:induction false} TicketsAreAll(history: seq<Record>, below: nat, k: nat)
    requires Served(history, below) && below <= |history| && k < |history|
    ensures history[k].ticket == k
    decreases |history|
  {
    var n := |history| - 1;
    assert Served(history[..n], history[n].ticket);
    if k < n {
      TicketsAreAll(history[..n], history[n].ticket, k);
    } else if n > 0 {
      TicketsAreAll(history[..n], history[n].ticket, n - 1);
    }
  }

  /** A lane that was never cancelled and has nothing left to do carried out every task it was given, in order. */
  lemma NothingLost(l: Lane)
    requires l.Valid() && l.generation == 0 && l.current == None && l.tasks == []
    ensures |l.history| == |l.given|
    ensures forall k :: 0 <= k < |l.history| ==>
              l.history[k].events == l.given[k] && l.history[k].carried == |l.given[k]|
    ensures Deeds(l.log) == Stories(l.script, l.history)
  {
    hide Stories, Deeds, HandOf, InProgress;
    assert Stories(l.script, l.history) + [] == Stories(l.script, l.history);
    forall k | 0 <= k < |l.history| ensures l.history[k].events == l.given[k] {
      TicketsAreAll(l.history, l.served, k);
    }
  }
}
