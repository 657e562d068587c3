/**
 The physical keyboard on top of the two lanes: a key goes down on key-down and comes up on
 key-up, but not before it was down 100 ms, unless everything is force-released.
 */
module Keyboard {
  import opened Words
  import opened KeySequencer

  /** What the keyboard itself tells the host; an up names the press it ends. */
  datatype Touch = WentDown(code: nat, at: int) | CameUp(code: nat, since: int, at: int, forced: bool) | Show(id: int)

  /** A key on its way up: when it comes up, and which. */
  datatype Due = Due(time: int, code: nat)

  /** A press: the key and when it went down. */
  datatype Hit = Hit(code: nat, since: int)

  function Downs(told: seq<Touch>): multiset<Hit> {
    if told == [] then multiset{}
    else
      var t := told[|told| - 1];
      Downs(told[..|told| - 1]) + (if t.WentDown? then multiset{Hit(t.code, t.at)} else multiset{})
  }

  function Ups(told: seq<Touch>): multiset<Hit> {
    if told == [] then multiset{}
    else
      var t := told[|told| - 1];
      Ups(told[..|told| - 1]) + (if t.CameUp? then multiset{Hit(t.code, t.since)} else multiset{})
  }

  /** The press that a due release ends: it went down 100 ms before. */
  function HitOf(d: Due): Hit { Hit(d.code, d.time - HOLD) }

  function Hits(dues: seq<Due>): multiset<Hit> {
    if dues == [] then multiset{} else Hits(dues[..|dues| - 1]) + multiset{HitOf(dues[|dues| - 1])}
  }

  lemma Appended(told: seq<Touch>, t: Touch)
    ensures Downs(told + [t]) == Downs(told) + (if t.WentDown? then multiset{Hit(t.code, t.at)} else multiset{})
    ensures Ups(told + [t]) == Ups(told) + (if t.CameUp? then multiset{Hit(t.code, t.since)} else multiset{})
  {
    assert (told + [t])[..|told|] == told;
  }

  lemma DueAppended(dues: seq<Due>, d: Due)
    ensures Hits(dues + [d]) == Hits(dues) + multiset{HitOf(d)}
  {
    assert (dues + [d])[..|dues|] == dues;
  }

  lemma {:induction false} DueRemoved(dues: seq<Due>, i: nat)
    requires i < |dues|
    ensures Hits(dues) == Hits(dues[..i] + dues[i + 1..]) + multiset{HitOf(dues[i])}
    decreases |dues|
  {
    hide HitOf, Hits;
    var n := |dues| - 1;
    var rest := dues[..i] + dues[i + 1..];
    DueAppended(dues[..n], dues[n]);
    assert dues == dues[..n] + [dues[n]];
    if i == n {
      assert rest == dues[..n];
    } else {
      var shorter := dues[..n][..i] + dues[..n][i + 1..];
      DueRemoved(dues[..n], i);
      assert rest == shorter + [dues[n]];
      DueAppended(shorter, dues[n]);
    }
  }

  /** No up before its press was down 100 ms, but for forced ones. */
  ghost predicate HeldLongEnough(told: seq<Touch>) {
    forall i :: 0 <= i < |told| && told[i].CameUp? && !told[i].forced ==> told[i].at >= told[i].since + HOLD
  }

  /** The order in which due releases are taken: by time, then by code. */
  predicate NotAfter(a: Due, b: Due) {
    a.time < b.time || (a.time == b.time && a.code <= b.code)
  }

  function One(h: Option<Hit>): multiset<Hit> {
    if h.Some? then multiset{h.value} else multiset{}
  }

  /** Every press is up, on its way up, or held; none was cut short but by force. */
  ghost predicate Balanced(told: seq<Touch>, releases: seq<Due>, h: Option<Hit>) {
    Downs(told) == Ups(told) + Hits(releases) + One(h) && HeldLongEnough(told)
  }

  lemma Shown(told: seq<Touch>, releases: seq<Due>, h: Option<Hit>, id: int)
    requires Balanced(told, releases, h)
    ensures Balanced(told + [Show(id)], releases, h)
  {
    Appended(told, Show(id));
    hide Downs, Ups, Hits;
  }

  lemma Lifted(told: seq<Touch>, releases: seq<Due>, h: Hit, at: int, forced: bool)
    requires Balanced(told, releases, Some(h)) && (forced || at >= h.since + HOLD)
    ensures Balanced(told + [CameUp(h.code, h.since, at, forced)], releases, None)
  {
    Appended(told, CameUp(h.code, h.since, at, forced));
    hide Downs, Ups, Hits;
  }

  lemma Deferred(told: seq<Touch>, releases: seq<Due>, h: Hit)
    requires Balanced(told, releases, Some(h))
    ensures Balanced(told, releases + [Due(h.since + HOLD, h.code)], None)
  {
    DueAppended(releases, Due(h.since + HOLD, h.code));
    hide Downs, Ups, Hits;
  }

  lemma Pressed(told: seq<Touch>, releases: seq<Due>, code: nat, at: int)
    requires Balanced(told, releases, None)
    ensures Balanced(told + [WentDown(code, at)], releases, Some(Hit(code, at)))
  {
    Appended(told, WentDown(code, at));
    hide Downs, Ups, Hits;
  }

  lemma Released(told: seq<Touch>, releases: seq<Due>, h: Option<Hit>, i: nat, at: int)
    requires Balanced(told, releases, h) && i < |releases| && at >= releases[i].time
    ensures var d := releases[i];
            Balanced(told + [CameUp(d.code, d.time - HOLD, at, false)], releases[..i] + releases[i + 1..], h)
  {
    hide Downs, Ups, Hits, HeldLongEnough;
    var up := CameUp(releases[i].code, releases[i].time - HOLD, at, false);
    LongEnough(told, up);
    OneUp(told, releases, i, up);
    Moved(Ups(told), Hits(releases[..i] + releases[i + 1..]), multiset{HitOf(releases[i])}, One(h));
  }

  lemma LongEnough(told: seq<Touch>, up: Touch)
    requires HeldLongEnough(told) && (up.CameUp? && !up.forced ==> up.at >= up.since + HOLD)
    ensures HeldLongEnough(told + [up])
  {
  }

  lemma OneUp(told: seq<Touch>, releases: seq<Due>, i: nat, up: Touch)
    requires i < |releases| && up.CameUp? && up.code == releases[i].code && up.since == releases[i].time - HOLD
    ensures Downs(told + [up]) == Downs(told)
    ensures Ups(told + [up]) == Ups(told) + multiset{HitOf(releases[i])}
    ensures Hits(releases) == Hits(releases[..i] + releases[i + 1..]) + multiset{HitOf(releases[i])}
  {
    hide Downs, Ups, Hits;
    DueRemoved(releases, i);
    Appended(told, up);
  }

  lemma Moved<T>(a: multiset<T>, b: multiset<T>, c: multiset<T>, d: multiset<T>)
    ensures a + (b + c) + d == (a + c) + b + d
  {
  }

  /** What lifting the held key tells the host at once, */
  function LiftTold(h: Option<Hit>, now: int): seq<Touch> {
    if h.None? then []
    else if now >= h.value.since + HOLD then [Show(-1), CameUp(h.value.code, h.value.since, now, false)]
    else [Show(-1)]
  }

  /** and what it leaves for later. */
  function LiftDue(h: Option<Hit>, now: int): seq<Due> {
    if h.Some? && now < h.value.since + HOLD then [Due(h.value.since + HOLD, h.value.code)] else []
  }

  function PressTold(codes: seq<nat>, now: int): seq<Touch> {
    if |codes| == 1 then [Show(HighlightId(codes[0])), WentDown(codes[0], now)] else []
  }

  class Sequencer {
    const script: Lane
    const keys: Lane
    var clock: int
    var held: Option<Hit>
    var releases: seq<Due>
    var told: seq<Touch>

    ghost predicate Valid()
      reads this, script, keys
    {
      && script != keys && script.script && !keys.script && script.Valid() && keys.Valid()
      && Balanced(told, releases, held)
    }

    constructor (host: nat -> Sight)
      ensures Valid() && fresh(script) && fresh(keys) && told == [] && held == None && releases == []
    {
      var s := new Lane(true, host);
      var k := new Lane(false, host);
      script, keys := s, k;
      clock, held, releases, told := 0, None, [], [];
    }

    method Tell(t: Touch)
      modifies this`told
      ensures told == old(told) + [t]
    {
      told := told + [t];
    }

    method Play(events: seq<Event>)
      requires Valid()
      modifies script
      ensures Valid() && script.posts == old(script.posts) + 1
    {
      script.Post(events);
    }

    method CancelPlayback()
      requires Valid()
      modifies script
      ensures Valid() && script.tasks == [] && script.generation == old(script.generation) + 1
    {
      script.Cancel();
    }

    /** The held key comes up now, or 100 ms after it went down. */
    method LiftKey()
      requires Valid()
      modifies this`held, this`releases, this`told
      ensures Valid() && held == None
      ensures told == old(told) + LiftTold(old(held), clock) && releases == old(releases) + LiftDue(old(held), clock)
    {
      hide Balanced, Lane.Valid;
      if held.Some? {
        var h := held.value;
        held := None;
        Shown(told, releases, Some(h), -1);
        Tell(Show(-1));
        if clock >= h.since + HOLD {
          Lifted(told, releases, h, clock, false);
          Tell(CameUp(h.code, h.since, clock, false));
        } else {
          Deferred(told, releases, h);
          releases := releases + [Due(h.since + HOLD, h.code)];
        }
      }
    }

    /** One code goes down and stays; several are tapped one after the other on the keyboard lane. */
    method PressKeys(codes: seq<nat>)
      requires Valid()
      modifies this`held, this`releases, this`told, keys
      ensures Valid()
      ensures |codes| == 0 ==> held == old(held) && told == old(told) && releases == old(releases)
      ensures |codes| > 0 ==> releases == old(releases) + LiftDue(old(held), clock)
      ensures |codes| > 0 ==> told == old(told) + LiftTold(old(held), clock) + PressTold(codes, clock)
      ensures |codes| > 0 ==> held == if |codes| == 1 then Some(Hit(codes[0], clock)) else None
      ensures |codes| == 1 ==> keys.tasks == [] && keys.generation == old(keys.generation) + 1
      ensures |codes| > 1 ==> |keys.tasks| == 1
      ensures |codes| > 1 ==> keys.tasks[0].events == Taps(codes) && keys.tasks[0].generation == keys.generation
    {
      hide Balanced, Lane.Valid, LiftTold, LiftDue;
      if codes == [] {
        return;
      }
      LiftKey();
      keys.Cancel();
      if |codes| == 1 {
        Hold(codes[0]);
      } else {
        keys.Post(Taps(codes));
      }
    }

    method Hold(code: nat)
      requires Valid() && held == None
      modifies this`held, this`told
      ensures Valid() && held == Some(Hit(code, clock)) && told == old(told) + PressTold([code], clock)
    {
      hide Balanced, Lane.Valid;
      held := Some(Hit(code, clock));
      Shown(told, releases, None, HighlightId(code));
      Pressed(told + [Show(HighlightId(code))], releases, code, clock);
      Tell(Show(HighlightId(code)));
      Tell(WentDown(code, clock));
    }

    /** Focus lost: whatever is held comes up at once. */
    method ReleaseAll()
      requires Valid()
      modifies this`held, this`told, keys
      ensures Valid() && held == None && keys.tasks == []
      ensures old(held).Some? ==> CameUp(old(held).value.code, old(held).value.since, clock, true) in told
    {
      hide Balanced, Lane.Valid;
      keys.Cancel();
      var h := held;
      held := None;
      if h.Some? {
        Lifted(told, releases, h.value, clock, true);
        Tell(CameUp(h.value.code, h.value.since, clock, true));
      }
      Shown(told, releases, None, -1);
      Tell(Show(-1));
    }

    /** The earliest due release. */
    method Earliest() returns (least: nat)
      requires releases != []
      ensures least < |releases| && forall i :: 0 <= i < |releases| ==> NotAfter(releases[least], releases[i])
    {
      least := 0;
      var i := 1;
      while i < |releases|
        invariant 1 <= i <= |releases| && least < i
        invariant forall k :: 0 <= k < i ==> NotAfter(releases[least], releases[k])
      {
        if !NotAfter(releases[least], releases[i]) {
          least := i;
        }
        i := i + 1;
      }
    }

    /** Every key due by now comes up, the earliest first; when the next one is due. */
    method ReleaseDue() returns (next: Option<int>)
      requires Balanced(told, releases, held)
      modifies this`releases, this`told
      ensures Balanced(told, releases, held) && old(told) <= told
      ensures forall i :: 0 <= i < |releases| ==> releases[i].time > clock
      ensures next.None? <==> releases == []
      ensures next.Some? ==> exists i :: 0 <= i < |releases| && releases[i].time == next.value
      ensures next.Some? ==> forall i :: 0 <= i < |releases| ==> next.value <= releases[i].time
      ensures forall i :: |old(told)| <= i < |told| ==> told[i].CameUp? && told[i].at == clock
      ensures forall i, j :: |old(told)| <= i < j < |told| ==> told[i].since <= told[j].since
    {
      hide Balanced;
      while releases != []
        invariant Balanced(told, releases, held) && old(told) <= told
        invariant forall i :: |old(told)| <= i < |told| ==> told[i].CameUp? && told[i].at == clock
        invariant forall i, j :: |old(told)| <= i < j < |told| ==> told[i].since <= told[j].since
        invariant forall i, k :: |old(told)| <= i < |told| && 0 <= k < |releases| ==> told[i].since <= releases[k].time - HOLD
        decreases |releases|
      {
        var least := Earliest();
        var d := releases[least];
        if clock < d.time {
          return Some(d.time);
        }
        Released(told, releases, held, least, clock);
        releases := releases[..least] + releases[least + 1..];
        Tell(CameUp(d.code, d.time - HOLD, clock, false));
      }
      return None;
    }

    /** Time goes on: what is due is done. */
    method Advance(now: int)
      requires Valid()
      modifies this`clock, this`releases, this`told, script, keys
      ensures Valid() && clock == (if now >= old(clock) then now else old(clock))
      ensures forall i :: 0 <= i < |releases| ==> releases[i].time > clock
    {
      hide Balanced, Lane.Valid;
      clock := if now >= clock then now else clock;
      var next := ReleaseDue();
      var s := script.Advance(clock);
      var k := keys.Advance(clock);
    }
  }

  function Taps(codes: seq<nat>): (events: seq<Event>)
    ensures |events| == |codes| && forall i :: 0 <= i < |codes| ==> events[i] == Key(codes[i])
  {
    seq(|codes|, i requires 0 <= i < |codes| => Key(codes[i]))
  }

  /** With nothing held and nothing due, every press has come up, once. */
  lemma AllKeysUp(s: Sequencer)
    requires s.Valid() && s.held == None && s.releases == []
    ensures Downs(s.told) == Ups(s.told)
  {
  }
}
