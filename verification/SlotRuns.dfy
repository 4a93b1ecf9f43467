/** Whole runs of the slot limiter: acquires and possibly repeated releases, in any order. */
module SlotRuns {
  import opened Sums
  import Slots

  /** Acquire a slot, or call the release closure of the app's k-th grant, again perhaps. */
  datatype Event = Acquire(app: string) | Release(app: string, k: nat)

  /** `grants[app][k]` says whether the app's k-th grant has been released. */
  datatype State = State(slots: Slots.State, grants: map<string, seq<bool>>)

  function Init(): State {
    State(Slots.Empty(), map[])
  }

  function GrantsOf(s: State, app: string): seq<bool> {
    if app in s.grants then s.grants[app] else []
  }

  function Step(c: Slots.Config, s: State, e: Event): State {
    match e
    case Acquire(app) =>
      if Slots.Decide(c, s.slots, app).Granted? then
        State(Slots.Claim(s.slots, app), s.grants[app := GrantsOf(s, app) + [false]])
      else s
    case Release(app, k) =>
      if k < |GrantsOf(s, app)| && !GrantsOf(s, app)[k] then
        State(Slots.Release(s.slots, app), s.grants[app := GrantsOf(s, app)[k := true]])
      else s
  }

  function Run(c: Slots.Config, s: State, events: seq<Event>): State
    decreases |events|
  {
    if events == [] then s else Run(c, Step(c, s, events[0]), events[1..])
  }

  // ---- conservation ----

  /** Grants not yet released. */
  function Open(grants: seq<bool>): nat {
    if grants == [] then 0 else Open(grants[..|grants| - 1]) + if grants[|grants| - 1] then 0 else 1
  }

  lemma {:induction false} OpenAfterRelease(grants: seq<bool>, k: nat)
    requires k < |grants| && !grants[k]
    ensures Open(grants[k := true]) == Open(grants) - 1
  {
    var front := grants[..|grants| - 1];
    if k < |front| {
      OpenAfterRelease(front, k);
      assert grants[k := true][..|grants| - 1] == front[k := true];
    } else {
      assert grants[k := true][..|grants| - 1] == front;
    }
  }

  ghost predicate Conserved(c: Slots.Config, s: State) {
    && Slots.Sound(c, s.slots)
    && forall app :: At(s.slots.inFlight, app) == Open(GrantsOf(s, app))
  }

  lemma {:induction false} OpenIsPositive(grants: seq<bool>, k: nat)
    requires k < |grants| && !grants[k]
    ensures Open(grants) > 0
  {
    if k < |grants| - 1 {
      OpenIsPositive(grants[..|grants| - 1], k);
    }
  }

  lemma {:induction false} StepConserves(c: Slots.Config, s: State, e: Event)
    requires Conserved(c, s)
    ensures Conserved(c, Step(c, s, e))
  {
    var t := Step(c, s, e);
    var held := s.slots.inFlight;
    assert At(held, e.app) == Open(GrantsOf(s, e.app));
    match e
    case Acquire(app) =>
      if Slots.Decide(c, s.slots, app).Granted? {
        Slots.ClaimKeepsSound(c, s.slots, app);
        assert (GrantsOf(s, app) + [false])[..|GrantsOf(s, app)|] == GrantsOf(s, app);
        forall a ensures At(t.slots.inFlight, a) == Open(GrantsOf(t, a)) {
          assert At(held, a) == Open(GrantsOf(s, a));
        }
      }
    case Release(app, k) =>
      if k < |GrantsOf(s, app)| && !GrantsOf(s, app)[k] {
        OpenIsPositive(GrantsOf(s, app), k);
        OpenAfterRelease(GrantsOf(s, app), k);
        Slots.ReleaseKeepsSound(c, s.slots, app);
        forall a ensures At(t.slots.inFlight, a) == Open(GrantsOf(t, a)) {
          assert At(held, a) == Open(GrantsOf(s, a));
        }
      }
  }

  /**
   * In every run each app holds exactly its unreleased grants, the total is their sum,
   * no zero entry lingers, and no limit is exceeded.
   */
  lemma {:induction false} RunConserves(c: Slots.Config, s: State, events: seq<Event>)
    requires Conserved(c, s)
    ensures Conserved(c, Run(c, s, events))
    decreases |events|
  {
    if events != [] {
      StepConserves(c, s, events[0]);
      RunConserves(c, Step(c, s, events[0]), events[1..]);
    }
  }

  lemma {:induction false} InitConserves(c: Slots.Config)
    ensures Conserved(c, Init())
  {
  }

  ghost predicate AllReleased(s: State) {
    forall app :: Open(GrantsOf(s, app)) == 0
  }

  /** Once every grant has been released, the limiter is as it was built. */
  lemma {:induction false} AllReleasedIsEmpty(c: Slots.Config, events: seq<Event>)
    requires AllReleased(Run(c, Init(), events))
    ensures Run(c, Init(), events).slots == Slots.Empty()
  {
    InitConserves(c);
    RunConserves(c, Init(), events);
    NothingHeld(c, Run(c, Init(), events));
  }

  lemma {:induction false} NothingHeld(c: Slots.Config, s: State)
    requires Conserved(c, s) && AllReleased(s)
    ensures s.slots == Slots.Empty()
  {
    forall app ensures At(s.slots.inFlight, app) == 0 {
      assert At(s.slots.inFlight, app) == Open(GrantsOf(s, app)) == 0;
    }
    Slots.NothingHeldIsEmpty(c, s.slots);
  }

  // ---- isolation ----

  /** Either nothing is shared, or the app ceilings fit under the cap together. */
  ghost predicate Partitioned(c: Slots.Config) {
    c.global <= 0 || ((forall app :: app in c.ceilings ==> c.ceilings[app] > 0) && Sum(c.ceilings) <= c.global)
  }

  predicate Configured(c: Slots.Config, events: seq<Event>) {
    forall i :: 0 <= i < |events| ==> events[i].app in c.ceilings
  }

  /** What `app` is told during a run: one answer per acquire of its own. */
  function Answers(c: Slots.Config, s: State, events: seq<Event>, app: string): seq<Slots.Answer>
    decreases |events|
  {
    if events == [] then []
    else
      (if events[0] == Acquire(app) then [Slots.Decide(c, s.slots, app)] else [])
      + Answers(c, Step(c, s, events[0]), events[1..], app)
  }

  /** The app's own events, in order. */
  function Project(events: seq<Event>, app: string): seq<Event>
    decreases |events|
  {
    if events == [] then []
    else (if events[0].app == app then [events[0]] else []) + Project(events[1..], app)
  }

  ghost predicate Known(c: Slots.Config, s: State) {
    Conserved(c, s) && s.slots.inFlight.Keys <= c.ceilings.Keys
  }

  /** When ceilings fit under the cap, an app below its ceiling always finds room. */
  lemma {:induction false} RoomBelowCeiling(c: Slots.Config, s: State, app: string)
    requires Partitioned(c) && c.global > 0 && Known(c, s) && app in c.ceilings
    requires At(s.slots.inFlight, app) < c.ceilings[app]
    ensures s.slots.total < c.global
  {
    var held := s.slots.inFlight;
    var filled := held[app := c.ceilings[app]];
    SumUpdate(held, app, c.ceilings[app]);
    forall k | k in c.ceilings ensures At(filled, k) <= c.ceilings[k] {
      assert At(c.ceilings, k) > 0;
    }
    SumMonotone(filled, c.ceilings);
  }

  lemma {:induction false} DecidedByOwnCeiling(c: Slots.Config, s: State, app: string)
    requires Partitioned(c) && Known(c, s) && app in c.ceilings
    ensures Slots.Decide(c, s.slots, app) ==
      if c.ceilings[app] > 0 && At(s.slots.inFlight, app) >= c.ceilings[app]
      then Slots.Refused(c.ceilings[app]) else Slots.Granted
  {
    if c.global > 0 && At(s.slots.inFlight, app) < c.ceilings[app] {
      RoomBelowCeiling(c, s, app);
    }
  }

  lemma {:induction false} KnownKept(c: Slots.Config, s: State, e: Event)
    requires Known(c, s) && e.app in c.ceilings
    ensures Known(c, Step(c, s, e))
  {
    StepConserves(c, s, e);
  }

  /** One of the app's own events: the same verdict in both runs, and the same grants after it. */
  lemma {:induction false} SameStepAlone(c: Slots.Config, s: State, alone: State, e: Event)
    requires Partitioned(c) && Known(c, s) && Known(c, alone) && e.app in c.ceilings
    requires GrantsOf(s, e.app) == GrantsOf(alone, e.app)
    ensures Slots.Decide(c, s.slots, e.app) == Slots.Decide(c, alone.slots, e.app)
    ensures GrantsOf(Step(c, s, e), e.app) == GrantsOf(Step(c, alone, e), e.app)
  {
    assert At(s.slots.inFlight, e.app) == Open(GrantsOf(s, e.app));
    assert At(alone.slots.inFlight, e.app) == Open(GrantsOf(alone, e.app));
    DecidedByOwnCeiling(c, s, e.app);
    DecidedByOwnCeiling(c, alone, e.app);
  }

  lemma {:induction false} OtherKeepsGrants(c: Slots.Config, s: State, e: Event, app: string)
    requires e.app != app
    ensures GrantsOf(Step(c, s, e), app) == GrantsOf(s, app)
  {
  }

  lemma {:induction false} SameAnswersAlone(c: Slots.Config, s: State, alone: State, events: seq<Event>, app: string)
    requires Partitioned(c) && Configured(c, events) && Known(c, s) && Known(c, alone) && app in c.ceilings
    requires GrantsOf(s, app) == GrantsOf(alone, app)
    ensures Answers(c, s, events, app) == Answers(c, alone, Project(events, app), app)
    decreases |events|
  {
    if events != [] {
      var e, rest := events[0], events[1..];
      KnownKept(c, s, e);
      if e.app == app {
        OwnEventAlone(c, s, alone, e, rest);
        SameAnswersAlone(c, Step(c, s, e), Step(c, alone, e), rest, app);
      } else {
        OtherKeepsGrants(c, s, e, app);
        SameAnswersAlone(c, Step(c, s, e), alone, rest, app);
        assert Project(events, app) == Project(rest, app);
      }
    }
  }

  lemma {:induction false} OwnEventAlone(c: Slots.Config, s: State, alone: State, e: Event, rest: seq<Event>)
    requires Partitioned(c) && Known(c, s) && Known(c, alone) && e.app in c.ceilings
    requires GrantsOf(s, e.app) == GrantsOf(alone, e.app)
    ensures Known(c, Step(c, alone, e))
    ensures GrantsOf(Step(c, s, e), e.app) == GrantsOf(Step(c, alone, e), e.app)
    ensures Slots.Decide(c, s.slots, e.app) == Slots.Decide(c, alone.slots, e.app)
    ensures
      var mine := Project(rest, e.app);
      Answers(c, alone, [e] + mine, e.app)
        == (if e.Acquire? then [Slots.Decide(c, alone.slots, e.app)] else []) + Answers(c, Step(c, alone, e), mine, e.app)
  {
    KnownKept(c, alone, e);
    SameStepAlone(c, s, alone, e);
    assert ([e] + Project(rest, e.app))[1..] == Project(rest, e.app);
  }

  /** Isolation: what others do never changes what an app is told. */
  lemma {:induction false} Isolation(c: Slots.Config, events: seq<Event>, app: string)
    requires Partitioned(c) && Configured(c, events) && app in c.ceilings
    ensures Answers(c, Init(), events, app) == Answers(c, Init(), Project(events, app), app)
  {
    InitConserves(c);
    SameAnswersAlone(c, Init(), Init(), events, app);
  }
}
