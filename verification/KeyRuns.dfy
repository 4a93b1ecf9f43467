/**
 * Every interleaving of scheduled and triggered credential refreshes: each refresh
 * reads outside the lock, then commits, then leaves; time passes in between.
 */
module KeyRuns {
  import opened Wrappers
  import opened ProviderKeys

  /** Where a refresh stands: waiting for its read, holding a credential, or done with the entry; `at` is when the read came back. */
  datatype Stage = Reading | Holding(key: string, at: nat) | Leaving(at: nat)

  datatype Refresh = Refresh(provider: string, triggered: bool, since: nat, stage: Stage)

  datatype State = State(now: nat, entries: map<string, Slot>, flights: map<nat, Refresh>)

  datatype Event =
    | Begin(id: nat, provider: string)
    | Trigger(id: nat, provider: string)
    | Return(id: nat, answer: Result<string, string>)
    | Commit(id: nat, provider: string, key: string)
    | Leave(id: nat)
    | Tick(elapsed: nat)

  function Init(now: nat, providers: set<string>): State {
    State(now, map p | p in providers :: Slot("", None, false, None), map[])
  }

  predicate AtStage(s: State, id: nat, stage: Stage) {
    id in s.flights && s.flights[id].stage == stage
  }

  /** A trigger that is turned down needs no number; one that starts takes an unused one. */
  predicate Enabled(s: State, e: Event) {
    match e
    case Begin(id, p) => id !in s.flights && p in s.entries
    case Trigger(id, p) => id !in s.flights
    case Return(id, _) => AtStage(s, id, Reading)
    case Commit(id, p, key) =>
      id in s.flights && s.flights[id].stage.Holding? && s.flights[id].provider == p && s.flights[id].stage.key == key
      && p in s.entries
    case Leave(id) => id in s.flights && s.flights[id].stage.Leaving? && s.flights[id].provider in s.entries
    case Tick(_) => true
  }

  /** The trigger starts a refresh. */
  predicate Starts(s: State, p: string) {
    p in s.entries && MayTrigger(s.entries[p], s.now)
  }

  function Step(s: State, e: Event): State
    requires Enabled(s, e)
  {
    match e
    case Begin(id, p) => s.(flights := s.flights[id := Refresh(p, false, s.now, Reading)])
    case Trigger(id, p) =>
      if !Starts(s, p) then s
      else s.(entries := s.entries[p := Triggered(s.entries[p], s.now)],
              flights := s.flights[id := Refresh(p, true, s.now, Reading)])
    case Return(id, answer) =>
      var stage := if Verdict(Fetched(answer, s.now)).None? then Holding(answer.value, s.now) else Leaving(s.now);
      s.(flights := s.flights[id := s.flights[id].(stage := stage)])
    case Commit(id, p, key) =>
      s.(entries := s.entries[p := ProviderKeys.Commit(s.entries[p], key, s.now)],
         flights := s.flights[id := s.flights[id].(stage := Leaving(s.flights[id].stage.at))])
    case Leave(id) =>
      var f := s.flights[id];
      s.(entries := if f.triggered then s.entries[f.provider := s.entries[f.provider].(refreshing := false)] else s.entries,
         flights := s.flights - {id})
    case Tick(elapsed) => s.(now := s.now + elapsed)
  }

  /** The state a run of events leads to, if every one of them can happen in its turn. */
  function Run(s: State, events: seq<Event>): Option<State> {
    if events == [] then Some(s)
    else
      var last := events[|events| - 1];
      match Run(s, events[..|events| - 1])
      case None => None
      case Some(mid) => if Enabled(mid, last) then Some(Step(mid, last)) else None
  }

  // ---- single flight ----

  /** Refresh `id` is a triggered one of provider `p`. */
  predicate Flying(s: State, id: nat, p: string) {
    id in s.flights && s.flights[id].triggered && s.flights[id].provider == p
  }

  /** The flag is up exactly while a triggered refresh is out, there is never a second one, and it is the last that was started. */
  ghost predicate SingleFlight(s: State, p: string) {
    && (forall id, other :: Flying(s, id, p) && Flying(s, other, p) ==> id == other)
    && (forall id :: Flying(s, id, p) ==>
          p in s.entries && s.entries[p].refreshing && s.entries[p].lastTrigger == Some(s.flights[id].since))
    && (p in s.entries && s.entries[p].refreshing ==> exists id :: Flying(s, id, p))
  }

  lemma {:induction false} OneFlightLess(s: State, id: nat, p: string)
    requires SingleFlight(s, p) && Enabled(s, Leave(id))
    ensures SingleFlight(Step(s, Leave(id)), p)
  {
    var t := Step(s, Leave(id));
    forall other | Flying(t, other, p) ensures Flying(s, other, p) && !Flying(s, id, p) {}
    if p in t.entries && t.entries[p].refreshing {
      var other :| Flying(s, other, p);
      assert other != id;
      assert Flying(t, other, p);
    }
  }

  lemma {:induction false} StepKeepsSingleFlight(s: State, e: Event, p: string)
    requires SingleFlight(s, p) && Enabled(s, e)
    ensures SingleFlight(Step(s, e), p)
  {
    var t := Step(s, e);
    if e.Leave? {
      OneFlightLess(s, e.id, p);
    } else if e.Trigger? && e.provider == p && Starts(s, p) {
      assert Flying(t, e.id, p);
      forall other | Flying(t, other, p) ensures other == e.id {
        if other != e.id {
          assert Flying(s, other, p);
        }
      }
    } else {
      forall id | Flying(t, id, p) ensures Flying(s, id, p) && t.flights[id].since == s.flights[id].since {}
      if p in t.entries && t.entries[p].refreshing {
        var id :| Flying(s, id, p);
        assert Flying(t, id, p);
      }
    }
  }

  /** At most one triggered refresh per provider is in flight, in every reachable state. */
  lemma {:induction false} AtMostOneTriggered(now: nat, providers: set<string>, events: seq<Event>, p: string)
    requires Run(Init(now, providers), events).Some?
    ensures SingleFlight(Run(Init(now, providers), events).value, p)
  {
    if events != [] {
      var front, last := events[..|events| - 1], events[|events| - 1];
      AtMostOneTriggered(now, providers, front, p);
      StepKeepsSingleFlight(Run(Init(now, providers), front).value, last, p);
    }
  }

  // ---- cooldown ----

  /** When each triggered refresh of `p` was started. */
  function StartTimes(s: State, events: seq<Event>, p: string): seq<nat>
    requires Run(s, events).Some?
  {
    if events == [] then []
    else
      var front, last := events[..|events| - 1], events[|events| - 1];
      var mid := Run(s, front).value;
      StartTimes(s, front, p) + if last.Trigger? && last.provider == p && Starts(mid, p) then [mid.now] else []
  }

  /** Each start is the cooldown or more after the one before. */
  predicate Spaced(times: seq<nat>) {
    forall i :: 0 < i < |times| ==> Apart(times, i)
  }

  predicate Apart(times: seq<nat>, i: nat)
    requires 0 < i < |times|
  {
    times[i] - times[i - 1] >= TRIGGER_COOLDOWN
  }

  lemma {:induction false} SpacedSnoc(times: seq<nat>, next: nat)
    requires Spaced(times) && (times != [] ==> next - times[|times| - 1] >= TRIGGER_COOLDOWN)
    ensures Spaced(times + [next])
  {
    forall i | 0 < i < |times + [next]| ensures Apart(times + [next], i) {
      assert i < |times| ==> Apart(times, i);
    }
  }

  lemma {:induction false} StartsAreSpaced(s: State, events: seq<Event>, p: string)
    requires p in s.entries && s.entries[p].lastTrigger.None? && Run(s, events).Some?
    ensures p in Run(s, events).value.entries
    ensures
      var times, last := StartTimes(s, events, p), Run(s, events).value.entries[p].lastTrigger;
      Spaced(times) && last == if times == [] then None else Some(times[|times| - 1])
  {
    if events != [] {
      var front, last := events[..|events| - 1], events[|events| - 1];
      StartsAreSpaced(s, front, p);
      var mid := Run(s, front).value;
      var before := StartTimes(s, front, p);
      if last.Trigger? && last.provider == p && Starts(mid, p) {
        SpacedSnoc(before, mid.now);
      } else {
        assert StartTimes(s, events, p) == before;
      }
    }
  }

  lemma {:induction false} SpacedSpread(times: seq<nat>)
    requires Spaced(times) && times != []
    ensures times[|times| - 1] - times[0] >= (|times| - 1) * TRIGGER_COOLDOWN
  {
    if |times| > 1 {
      StretchIsSpaced(times, 0, |times| - 1);
      assert Apart(times, |times| - 1);
      SpacedSpread(times[0..|times| - 1]);
    }
  }

  lemma {:induction false} StretchIsSpaced(times: seq<nat>, i: nat, j: nat)
    requires Spaced(times) && i <= j <= |times|
    ensures Spaced(times[i..j])
  {
    var part := times[i..j];
    forall k | 0 < k < |part| ensures Apart(part, k) {
      assert Apart(times, i + k);
    }
  }

  /** However often a provider rejects its key, any stretch of starts lying within a span has at most one per cooldown, plus one. */
  lemma {:induction false} StartsInSpan(now: nat, providers: set<string>, events: seq<Event>, p: string, i: nat, j: nat, span: nat)
    requires p in providers && Run(Init(now, providers), events).Some?
    requires
      var times := StartTimes(Init(now, providers), events, p);
      i < j <= |times| && times[j - 1] - times[i] <= span
    ensures j - i <= span / 30_000_000_000 + 1
  {
    var s := Init(now, providers);
    StartsAreSpaced(s, events, p);
    var times := StartTimes(s, events, p);
    StretchIsSpaced(times, i, j);
    var part := times[i..j];
    SpacedSpread(part);
    assert part[0] == times[i] && part[|part| - 1] == times[j - 1];
    assert (j - i - 1) * TRIGGER_COOLDOWN <= span;
  }

  // ---- fail static ----

  /** The last key committed for `p`, read off the events alone. */
  function LastCommitted(events: seq<Event>, p: string): string {
    if events == [] then ""
    else
      var last := events[|events| - 1];
      if last.Commit? && last.provider == p then last.key else LastCommitted(events[..|events| - 1], p)
  }

  ghost predicate Everknown(events: seq<Event>, p: string) {
    exists i :: 0 <= i < |events| && events[i].Commit? && events[i].provider == p
  }

  /** No refresh holds an empty key. */
  predicate KeysHeld(s: State) {
    forall id :: id in s.flights && s.flights[id].stage.Holding? ==> s.flights[id].stage.key != ""
  }

  lemma {:induction false} NeverHoldsEmpty(now: nat, providers: set<string>, events: seq<Event>)
    requires Run(Init(now, providers), events).Some?
    ensures KeysHeld(Run(Init(now, providers), events).value)
  {
    if events != [] {
      NeverHoldsEmpty(now, providers, events[..|events| - 1]);
    }
  }

  ghost predicate ReadBack(events: seq<Event>, id: nat, key: string) {
    exists i :: 0 <= i < |events| && events[i] == Return(id, Ok(key))
  }

  /** What a refresh holds, and so whatever it commits, is what its own read brought back. */
  lemma {:induction false} HoldsWhatItRead(now: nat, providers: set<string>, events: seq<Event>, id: nat, key: string, at: nat)
    requires Run(Init(now, providers), events).Some?
    requires AtStage(Run(Init(now, providers), events).value, id, Holding(key, at))
    ensures ReadBack(events, id, key)
  {
    var front, last := events[..|events| - 1], events[|events| - 1];
    if last == Return(id, Ok(key)) {
      assert events[|events| - 1] == last;
    } else {
      HoldsWhatItRead(now, providers, front, id, key, at);
      var i :| 0 <= i < |front| && front[i] == Return(id, Ok(key));
      assert events[i] == Return(id, Ok(key));
    }
  }

  /** The key in force is the last one committed; it and the load time appear together, and the key is then never empty. */
  lemma {:induction false} KeyIsLastCommitted(now: nat, providers: set<string>, events: seq<Event>, p: string)
    requires p in providers && Run(Init(now, providers), events).Some?
    ensures
      var s := Run(Init(now, providers), events).value;
      && p in s.entries
      && s.entries[p].key == LastCommitted(events, p)
      && (s.entries[p].loadedAt.Some? <==> Everknown(events, p))
      && (s.entries[p].key != "" <==> Everknown(events, p))
  {
    if events != [] {
      var front, last := events[..|events| - 1], events[|events| - 1];
      KeyIsLastCommitted(now, providers, front, p);
      NeverHoldsEmpty(now, providers, front);
      assert forall i :: 0 <= i < |front| ==> front[i] == events[i];
      if last.Commit? && last.provider == p {
        assert events[|events| - 1].Commit?;
      } else if Everknown(front, p) {
        var i :| 0 <= i < |front| && front[i].Commit? && front[i].provider == p;
        assert events[i].Commit?;
      }
    }
  }

  function KeyOf(s: State, p: string): string {
    if p in s.entries then s.entries[p].key else ""
  }

  /** Once a provider has a key, no later step takes it away or empties it. */
  lemma {:induction false} KeyNeverLost(now: nat, providers: set<string>, events: seq<Event>, more: seq<Event>, p: string)
    requires p in providers && Run(Init(now, providers), events).Some? && Run(Init(now, providers), events + more).Some?
    requires KeyOf(Run(Init(now, providers), events).value, p) != ""
    ensures KeyOf(Run(Init(now, providers), events + more).value, p) != ""
  {
    KeyIsLastCommitted(now, providers, events, p);
    KeyIsLastCommitted(now, providers, events + more, p);
    var i :| 0 <= i < |events| && events[i].Commit? && events[i].provider == p;
    assert (events + more)[i] == events[i];
  }

  /** Ready once, ready for good. */
  lemma {:induction false} ReadinessIsKept(now: nat, providers: set<string>, events: seq<Event>, more: seq<Event>)
    requires Run(Init(now, providers), events).Some? && Run(Init(now, providers), events + more).Some?
    requires Servable(Run(Init(now, providers), events).value.entries)
    ensures Servable(Run(Init(now, providers), events + more).value.entries)
  {
    SameProviders(Init(now, providers), events);
    SameProviders(Init(now, providers), events + more);
    var s, t := Run(Init(now, providers), events).value, Run(Init(now, providers), events + more).value;
    if s.entries == map[] {
      assert t.entries.Keys == {};
      assert t.entries == map[];
    } else {
      var p :| p in s.entries && s.entries[p].loadedAt.Some?;
      KeyIsLastCommitted(now, providers, events, p);
      KeyNeverLost(now, providers, events, more, p);
      KeyIsLastCommitted(now, providers, events + more, p);
      assert t.entries[p].loadedAt.Some?;
    }
  }

  lemma {:induction false} SameProviders(s: State, events: seq<Event>)
    requires Run(s, events).Some?
    ensures Run(s, events).value.entries.Keys == s.entries.Keys
  {
    if events != [] {
      SameProviders(s, events[..|events| - 1]);
    }
  }

  // ---- the cooldown alone decides ----

  /** Every triggered refresh reads within the timeout and is gone within `lag` of its read. */
  predicate Punctual(s: State, lag: nat) {
    forall id :: id in s.flights && s.flights[id].triggered ==> InTime(s.flights[id], s.now, lag)
  }

  predicate InTime(f: Refresh, now: nat, lag: nat) {
    match f.stage
    case Reading => now <= f.since + FETCH_TIMEOUT
    case Holding(_, at) => at <= f.since + FETCH_TIMEOUT && now <= at + lag
    case Leaving(at) => at <= f.since + FETCH_TIMEOUT && now <= at + lag
  }

  /** With reads cut off at their timeout, a raised flag never outlives the cooldown: the flag turns no trigger down that the cooldown would let through. */
  lemma {:induction false} CooldownAloneDecides(now: nat, providers: set<string>, events: seq<Event>, p: string, lag: nat)
    requires Run(Init(now, providers), events).Some? && p in providers
    requires lag < 20_000_000_000
    requires Punctual(Run(Init(now, providers), events).value, lag)
    ensures
      var s := Run(Init(now, providers), events).value;
      p in s.entries && (Starts(s, p) <==> CooledDown(s.entries[p], s.now))
  {
    var s := Run(Init(now, providers), events).value;
    SameProviders(Init(now, providers), events);
    AtMostOneTriggered(now, providers, events, p);
    if s.entries[p].refreshing {
      var id :| Flying(s, id, p);
      assert InTime(s.flights[id], s.now, lag);
    }
  }

  /** A read that hangs past the cooldown does hold the slot: the flag, not the clock, then turns the trigger down. */
  lemma HungReadHoldsTheSlot(p: string)
    ensures
      var events := [Trigger(0, p), Tick(TRIGGER_COOLDOWN)];
      Run(Init(0, {p}), events).Some? &&
      var s := Run(Init(0, {p}), events).value;
      p in s.entries && CooledDown(s.entries[p], s.now) && !Starts(s, p)
  {
    var s := Init(0, {p});
    var first := [Trigger(0, p)];
    var events := [Trigger(0, p), Tick(TRIGGER_COOLDOWN)];
    assert first[..0] == [] && events[..1] == first;
    assert Run(s, []) == Some(s);
    assert Run(s, first) == Some(Step(s, Trigger(0, p)));
  }

  // ---- the code is a run ----

  /** A refresh nobody interrupts, as the steps it takes. */
  function Alone(id: nat, p: string, answer: Result<string, string>): seq<Event> {
    [Begin(id, p), Return(id, answer)]
    + (if Verdict(Fetched(answer, 0)).None? then [Commit(id, p, answer.value)] else [])
    + [Leave(id)]
  }

  lemma {:induction false} RunSnoc(s: State, events: seq<Event>, e: Event)
    requires Run(s, events).Some? && Enabled(Run(s, events).value, e)
    ensures Run(s, events + [e]) == Some(Step(Run(s, events).value, e))
  {
    assert (events + [e])[..|events|] == events;
  }

  /** Uninterrupted, the steps are `Refresh`: the entry is refreshed and nothing else changes. */
  lemma {:induction false} RefreshIsARun(s: State, id: nat, p: string, answer: Result<string, string>)
    requires p in s.entries && id !in s.flights
    ensures Run(s, Alone(id, p, answer)) == Some(s.(entries := RefreshedOne(s.entries, p, Fetched(answer, s.now))))
  {
    var s1 := Step(s, Begin(id, p));
    var s2 := Step(s1, Return(id, answer));
    assert Run(s, []) == Some(s);
    RunSnoc(s, [], Begin(id, p));
    RunSnoc(s, [Begin(id, p)], Return(id, answer));
    var two := [Begin(id, p), Return(id, answer)];
    assert [] + [Begin(id, p)] == [Begin(id, p)] && [Begin(id, p)] + [Return(id, answer)] == two;
    if Verdict(Fetched(answer, s.now)).None? {
      var commit := Commit(id, p, answer.value);
      RunSnoc(s, two, commit);
      RunSnoc(s, two + [commit], Leave(id));
      assert Step(Step(s2, commit), Leave(id)).flights == s.flights;
    } else {
      RunSnoc(s, two, Leave(id));
      assert two + [] + [Leave(id)] == two + [Leave(id)];
      assert s.entries[p := s.entries[p]] == s.entries;
      assert Step(s2, Leave(id)).flights == s.flights;
    }
  }
}
