/** Slots over every interleaving: conservation per replica and app. */
module FleetSlots {
  import opened Wrappers
  import opened Sums
  import opened Fleet
  import Slots

  predicate HoldsSlot(phase: Phase) {
    phase.Holding? || phase.Served? || phase.Closing?
  }

  /** The requests of an app holding a slot on a replica. */
  function Holders(s: State, replica: nat, app: string): set<nat> {
    set id | id in s.requests
      && s.requests[id].app == app && s.requests[id].replica == replica && HoldsSlot(s.requests[id].phase)
  }

  ghost predicate ConservedAt(c: Config, s: State, replica: nat, app: string) {
    && Slots.Sound(c.slots, SlotsOf(s, replica))
    && At(SlotsOf(s, replica).inFlight, app) == |Holders(s, replica, app)|
  }

  ghost predicate Conserved(c: Config, s: State) {
    forall replica, app :: ConservedAt(c, s, replica, app)
  }

  /** The request an event moves, if any. */
  function Mover(e: Event): Option<nat> {
    match e
    case Arrive(id, _, _) => Some(id)
    case Count(id, _, _) => Some(id)
    case Check(id, _, _) => Some(id)
    case Claim(id) => Some(id)
    case Risk(id, _, _) => Some(id)
    case Serve(id, _, _, _, _) => Some(id)
    case GiveUp(id, _) => Some(id)
    case Disconnect(id, _, _) => Some(id)
    case Settle(id, _, _) => Some(id)
    case Finish(id) => Some(id)
    case Tick(_) => None
    case Expire(_) => None
  }

  /** What a step makes of the requests: one arrival, one request's phase, or nothing. */
  lemma {:induction false} OnePhaseMoves(c: Config, s: State, e: Event)
    requires Enabled(s, e)
    ensures
      match Mover(e)
      case None => Step(c, s, e).requests == s.requests
      case Some(id) =>
        && id in Step(c, s, e).requests && (id in s.requests <==> !e.Arrive?)
        && Step(c, s, e).requests ==
             if e.Arrive? then s.requests[id := Request(e.app, e.replica, Arrived(s.meter.now))]
             else s.requests[id := s.requests[id].(phase := Step(c, s, e).requests[id].phase)]
  {
  }

  /** A step moves at most its own request, which keeps its app and replica. */
  lemma {:induction false} OnlyMoverMoves(c: Config, s: State, e: Event)
    requires Enabled(s, e)
    ensures
      var t := Step(c, s, e);
      && (forall id :: id in s.requests ==>
            id in t.requests && t.requests[id].app == s.requests[id].app && t.requests[id].replica == s.requests[id].replica)
      && (forall id :: id in t.requests && Mover(e) != Some(id) ==> id in s.requests && t.requests[id] == s.requests[id])
  {
    OnePhaseMoves(c, s, e);
  }

  lemma {:induction false} HoldersMoved(s: State, t: State, id: nat, phase: Phase, replica: nat, app: string)
    requires id in s.requests && t.requests == s.requests[id := s.requests[id].(phase := phase)]
    ensures
      Holders(t, replica, app) ==
        if s.requests[id].app != app || s.requests[id].replica != replica then Holders(s, replica, app)
        else if HoldsSlot(phase) then Holders(s, replica, app) + {id}
        else Holders(s, replica, app) - {id}
  {
  }

  /** Whether the event takes or returns its request's slot. */
  predicate Takes(c: Config, s: State, e: Event)
    requires Enabled(s, e)
  {
    e.Claim? && var r := s.requests[e.id]; Slots.Decide(c.slots, SlotsOf(s, r.replica), r.app).Granted?
  }

  lemma {:induction false} HoldersAfter(c: Config, s: State, e: Event, replica: nat, app: string)
    requires Enabled(s, e)
    ensures
      var t := Step(c, s, e);
      var mine := Mover(e).Some? && Mover(e).value in s.requests
        && s.requests[Mover(e).value].app == app && s.requests[Mover(e).value].replica == replica;
      Holders(t, replica, app) ==
        if Takes(c, s, e) && mine then Holders(s, replica, app) + {e.id}
        else if e.Finish? && mine then Holders(s, replica, app) - {e.id}
        else Holders(s, replica, app)
    ensures Takes(c, s, e) ==> e.id !in Holders(s, replica, app)
    ensures e.Finish? && s.requests[e.id].app == app && s.requests[e.id].replica == replica ==> e.id in Holders(s, replica, app)
  {
    OnePhaseMoves(c, s, e);
    var t := Step(c, s, e);
    if Mover(e).Some? && !e.Arrive? {
      var id := Mover(e).value;
      HoldersMoved(s, t, id, t.requests[id].phase, replica, app);
      assert HoldsSlot(t.requests[id].phase) <==> Takes(c, s, e) || (HoldsSlot(s.requests[id].phase) && !e.Finish?);
    }
  }

  lemma {:induction false} SlotsAfter(c: Config, s: State, e: Event, replica: nat)
    requires Enabled(s, e)
    ensures SlotsOf(Step(c, s, e), replica) ==
      if Takes(c, s, e) && s.requests[e.id].replica == replica then Slots.Claim(SlotsOf(s, replica), s.requests[e.id].app)
      else if e.Finish? && s.requests[e.id].replica == replica then Slots.Release(SlotsOf(s, replica), s.requests[e.id].app)
      else SlotsOf(s, replica)
  {
  }

  lemma {:induction false} StepConservesAt(c: Config, s: State, e: Event, replica: nat, app: string)
    requires Conserved(c, s) && Enabled(s, e)
    ensures ConservedAt(c, Step(c, s, e), replica, app)
  {
    assert ConservedAt(c, s, replica, app);
    HoldersAfter(c, s, e, replica, app);
    SlotsAfter(c, s, e, replica);
    if Takes(c, s, e) && s.requests[e.id].replica == replica {
      Slots.ClaimKeepsSound(c.slots, SlotsOf(s, replica), s.requests[e.id].app);
    } else if e.Finish? && s.requests[e.id].replica == replica {
      var owner := s.requests[e.id].app;
      HoldersAfter(c, s, e, replica, owner);
      assert ConservedAt(c, s, replica, owner);
      assert |Holders(s, replica, owner)| > 0;
      Slots.ReleaseKeepsSound(c.slots, SlotsOf(s, replica), owner);
    }
  }

  lemma {:induction false} InitConserves(c: Config, now: nat)
    ensures Conserved(c, Init(now))
  {
    forall replica, app ensures ConservedAt(c, Init(now), replica, app) {
      assert Holders(Init(now), replica, app) == {};
    }
  }

  /** In every interleaving, a replica's count for an app is the number of its requests holding a slot there, within every limit. */
  lemma {:induction false} RunConserves(c: Config, s: State, events: seq<Event>)
    requires Conserved(c, s) && IsRun(c, s, events)
    ensures Conserved(c, Run(c, s, events))
    decreases |events|
  {
    if events != [] {
      forall replica, app ensures ConservedAt(c, Step(c, s, events[0]), replica, app) {
        StepConservesAt(c, s, events[0], replica, app);
      }
      RunConserves(c, Step(c, s, events[0]), events[1..]);
    }
  }

  predicate Quiescent(s: State) {
    forall id :: id in s.requests ==> !HoldsSlot(s.requests[id].phase)
  }

  /** Once no request is past its claim and unfinished, every limiter is back to its initial state. */
  lemma {:induction false} AllReturnedIsInitial(c: Config, now: nat, events: seq<Event>, replica: nat)
    requires IsRun(c, Init(now), events) && Quiescent(Run(c, Init(now), events))
    ensures SlotsOf(Run(c, Init(now), events), replica) == Slots.Empty()
  {
    InitConserves(c, now);
    RunConserves(c, Init(now), events);
    var s := Run(c, Init(now), events);
    forall app ensures At(SlotsOf(s, replica).inFlight, app) == 0 {
      assert ConservedAt(c, s, replica, app);
      assert Holders(s, replica, app) == {};
    }
    assert ConservedAt(c, s, replica, "");
    Slots.NothingHeldIsEmpty(c.slots, SlotsOf(s, replica));
  }
}
