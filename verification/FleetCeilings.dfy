/** What slot ceilings make of the budget bound, and why they are not enough alone. */
module FleetCeilings {
  import opened Wrappers
  import opened Sums
  import opened Fleet
  import opened FleetBudget
  import Ledger
  import Slots
  import FleetSlots

  /** Past the budget check, not yet at the slot claim. */
  function Unclaimed(s: State, app: string): set<nat> {
    set id | id in s.requests && s.requests[id].app == app && s.requests[id].phase == Checked
  }

  predicate OnReplicas(s: State, replicas: nat) {
    forall id :: id in s.requests ==> s.requests[id].replica < replicas
  }

  function UnionBelow(sets: nat -> set<nat>, n: nat): set<nat> {
    if n == 0 then {} else UnionBelow(sets, n - 1) + sets(n - 1)
  }

  function HoldersBelow(s: State, replicas: nat, app: string): set<nat> {
    UnionBelow(replica => FleetSlots.Holders(s, replica, app), replicas)
  }

  lemma {:induction false} HoldersBelowCeiling(c: Config, s: State, replicas: nat, app: string)
    requires FleetSlots.Conserved(c, s) && At(c.slots.ceilings, app) > 0
    ensures |HoldersBelow(s, replicas, app)| <= replicas * Slots.SlotsPerReplica(c.slots, app)
  {
    var sets, each := (replica: nat) => FleetSlots.Holders(s, replica, app), Slots.SlotsPerReplica(c.slots, app);
    forall replica: nat ensures |sets(replica)| <= each {
      assert FleetSlots.ConservedAt(c, s, replica, app);
      Slots.HeldFits(c.slots, SlotsOf(s, replica), app);
    }
    UnionBelowSize(sets, replicas, each);
  }

  lemma {:induction false} UnionBelowSize(sets: nat -> set<nat>, n: nat, each: nat)
    requires forall k: nat :: |sets(k)| <= each
    ensures |UnionBelow(sets, n)| <= n * each
  {
    if n > 0 {
      UnionBelowSize(sets, n - 1, each);
      UnionSizeBound(UnionBelow(sets, n - 1), sets(n - 1), (n - 1) * each, each);
      OneReplicaMore(n, each);
    }
  }

  lemma {:induction false} OneReplicaMore(replicas: nat, ceiling: int)
    ensures replicas * ceiling == (replicas - 1) * ceiling + ceiling
  {
  }

  lemma {:induction false} UnionSizeBound(a: set<nat>, b: set<nat>, m: int, n: int)
    requires |a| <= m && |b| <= n
    ensures |a + b| <= m + n
  {
    UnionSize(a, b);
  }

  lemma {:induction false} UnionSize(a: set<nat>, b: set<nat>)
    ensures |a + b| <= |a| + |b|
  {
    assert a + b == a + (b - a);
    assert |a + (b - a)| == |a| + |b - a|;
    Ledger.Subset(b - a, b);
  }

  lemma {:induction false} HoldersAreBelow(s: State, replicas: nat, app: string, id: nat)
    requires id in s.requests && s.requests[id].app == app && s.requests[id].replica < replicas
    requires FleetSlots.HoldsSlot(s.requests[id].phase)
    ensures id in HoldersBelow(s, replicas, app)
  {
    if s.requests[id].replica < replicas - 1 {
      HoldersAreBelow(s, replicas - 1, app, id);
    }
  }

  /** Unsettled requests either hold a slot, of which every replica has so many, or have not claimed one. */
  lemma {:induction false} UnsettledWidth(c: Config, s: State, replicas: nat, app: string)
    requires FleetSlots.Conserved(c, s) && OnReplicas(s, replicas) && At(c.slots.ceilings, app) > 0
    ensures |Unsettled(s, app)| <= replicas * Slots.SlotsPerReplica(c.slots, app) + |Unclaimed(s, app)|
  {
    forall id | id in Unsettled(s, app) ensures id in HoldersBelow(s, replicas, app) + Unclaimed(s, app) {
      if s.requests[id].phase != Checked {
        HoldersAreBelow(s, replicas, app, id);
      }
    }
    Ledger.Subset(Unsettled(s, app), HoldersBelow(s, replicas, app) + Unclaimed(s, app));
    UnionSize(HoldersBelow(s, replicas, app), Unclaimed(s, app));
    HoldersBelowCeiling(c, s, replicas, app);
  }

  // ---- runs on a bounded number of replicas ----

  /** Checks get through, costs are bounded, replicas too, and at most `gap` requests stand between check and claim when one settles. */
  predicate Gapped(c: Config, s: State, e: Event, app: string, cost: nat, replicas: nat, gap: nat) {
    && (e.Arrive? ==> e.replica < replicas)
    && (e.Check? && e.id in s.requests && s.requests[e.id].app == app ==> e.link.Up?)
    && (e.Serve? && e.id in s.requests && s.requests[e.id].app == app ==> e.usage.prompt + e.usage.completion <= cost)
    && (e.Settle? && e.id in s.requests && s.requests[e.id].app == app ==> |Unclaimed(s, app)| <= gap)
  }

  predicate GappedRun(c: Config, s: State, events: seq<Event>, app: string, cost: nat, replicas: nat, gap: nat)
    requires IsRun(c, s, events)
    decreases |events|
  {
    events == []
    || (Gapped(c, s, events[0], app, cost, replicas, gap)
        && GappedRun(c, Step(c, s, events[0]), events[1..], app, cost, replicas, gap))
  }

  lemma {:induction false} StaysOnReplicas(c: Config, s: State, e: Event, replicas: nat)
    requires Enabled(s, e) && OnReplicas(s, replicas) && (e.Arrive? ==> e.replica < replicas)
    ensures OnReplicas(Step(c, s, e), replicas)
  {
    FleetSlots.OnlyMoverMoves(c, s, e);
  }

  lemma {:induction false} GappedRunIsTame(
    c: Config, s: State, events: seq<Event>, app: string, cost: nat, replicas: nat, gap: nat)
    requires IsRun(c, s, events) && GappedRun(c, s, events, app, cost, replicas, gap)
    requires FleetSlots.Conserved(c, s) && OnReplicas(s, replicas) && At(c.slots.ceilings, app) > 0
    ensures TameRun(c, s, events, app, cost, replicas * Slots.SlotsPerReplica(c.slots, app) + gap)
    decreases |events|
  {
    if events != [] {
      var e := events[0];
      var t := Step(c, s, e);
      UnsettledWidth(c, s, replicas, app);
      StaysOnReplicas(c, s, e, replicas);
      forall replica, a ensures FleetSlots.ConservedAt(c, t, replica, a) {
        FleetSlots.StepConservesAt(c, s, e, replica, a);
      }
      GappedRunIsTame(c, t, events[1..], app, cost, replicas, gap);
    }
  }

  /**
   * The overshoot in the code's own steps: the slots of every replica, the requests caught
   * between budget check and slot claim, and the late checks, all on top of a budget one short.
   */
  lemma {:induction false} CeilingBound(
    c: Config, now: nat, events: seq<Event>, app: string, cost: nat, replicas: nat, gap: nat, window: nat)
    requires At(c.budgets, app) >= 1 && At(c.slots.ceilings, app) > 0
    requires IsRun(c, Init(now), events) && GappedRun(c, Init(now), events, app, cost, replicas, gap)
    ensures Spend(Run(c, Init(now), events), app, window)
         <= At(c.budgets, app) - 1
          + (replicas * Slots.SlotsPerReplica(c.slots, app) + gap + LatePasses(c, Init(now), events, app, window)) * cost
  {
    FleetSlots.InitConserves(c, now);
    GappedRunIsTame(c, Init(now), events, app, cost, replicas, gap);
    SoftBudgetBound(c, now, events, app, cost, replicas * Slots.SlotsPerReplica(c.slots, app) + gap, window);
  }

  // ---- check and claim as one step ----

  /** Whoever passes the check claims a slot in the very next step. */
  predicate Adjacent(c: Config, s: State, events: seq<Event>, app: string)
    requires IsRun(c, s, events)
    decreases |events|
  {
    events == []
    || (var e := events[0];
        && (PassesCheck(c, s, e, app) && |events| > 1 ==> events[1] == Claim(e.id))
        && Adjacent(c, Step(c, s, e), events[1..], app))
  }

  /** Nobody stands in between, or the one who does moves next. */
  predicate ClaimIsNext(s: State, events: seq<Event>, app: string) {
    Unclaimed(s, app) == {} || events == [] || (events[0].Claim? && Unclaimed(s, app) == {events[0].id})
  }

  lemma {:induction false} UnclaimedAfter(c: Config, s: State, e: Event, app: string)
    requires Enabled(s, e)
    ensures Unclaimed(Step(c, s, e), app) ==
      if PassesCheck(c, s, e, app) then Unclaimed(s, app) + {e.id}
      else if e.Claim? then Unclaimed(s, app) - {e.id}
      else Unclaimed(s, app)
  {
    FleetSlots.OnlyMoverMoves(c, s, e);
    var t := Step(c, s, e);
    forall id | FleetSlots.Mover(e) != Some(id) ensures id in Unclaimed(t, app) <==> id in Unclaimed(s, app) {
    }
  }

  lemma {:induction false} AdjacentHasNoGap(
    c: Config, s: State, events: seq<Event>, app: string, cost: nat, replicas: nat, gap: nat)
    requires IsRun(c, s, events) && Adjacent(c, s, events, app) && ClaimIsNext(s, events, app)
    requires GappedRun(c, s, events, app, cost, replicas, gap)
    ensures GappedRun(c, s, events, app, cost, replicas, 0)
    decreases |events|
  {
    if events != [] {
      UnclaimedAfter(c, s, events[0], app);
      AdjacentHasNoGap(c, Step(c, s, events[0]), events[1..], app, cost, replicas, gap);
    }
  }

  /** With check and claim adjacent only the slots and the late checks count; with none late, that is the documented estimate, once per replica. */
  lemma {:induction false} AdjacentBound(
    c: Config, now: nat, events: seq<Event>, app: string, cost: nat, replicas: nat, gap: nat, window: nat)
    requires At(c.budgets, app) >= 1 && At(c.slots.ceilings, app) > 0
    requires IsRun(c, Init(now), events) && Adjacent(c, Init(now), events, app)
    requires GappedRun(c, Init(now), events, app, cost, replicas, gap)
    ensures Spend(Run(c, Init(now), events), app, window)
         <= At(c.budgets, app) - 1
          + (replicas * Slots.SlotsPerReplica(c.slots, app) + LatePasses(c, Init(now), events, app, window)) * cost
    ensures LatePasses(c, Init(now), events, app, window) == 0 ==>
              Spend(Run(c, Init(now), events), app, window)
                <= At(c.budgets, app) - 1 + replicas * At(c.slots.ceilings, app) * cost
  {
    AdjacentHasNoGap(c, Init(now), events, app, cost, replicas, gap);
    CeilingBound(c, now, events, app, cost, replicas, 0, window);
    MoreSlotsMoreCost(replicas, Slots.SlotsPerReplica(c.slots, app), At(c.slots.ceilings, app), cost);
  }

  lemma {:induction false} MoreSlotsMoreCost(replicas: nat, few: nat, many: nat, cost: nat)
    requires few <= many
    ensures replicas * few * cost <= replicas * many * cost
  {
    Times(few, many, replicas);
    Times(replicas * few, replicas * many, cost);
  }
}
