/**
 * The bounds are exact. A run is built that spends all a bound allows, whatever the
 * configuration and without one store error: requests are counted second by second, at any
 * quota's pace, and wait; then, in one window, the budget is worked down to its last token,
 * everybody passes the check, and only after that is anybody served.
 */
module FleetOvershoot {
  import opened Domain
  import opened Sums
  import opened Windows
  import opened Fleet
  import opened FleetBudget
  import opened FleetCeilings
  import QuotaStore
  import Ledger
  import Slots

  // ---- runs within limits ----

  /** What a run is held to: costs, requests unsettled, replicas, requests between check and claim. */
  datatype Limits = Limits(cost: nat, width: nat, replicas: nat, gap: nat)

  predicate GetsThrough(e: Event) {
    match e
    case Count(_, link, _) => link.Up?
    case Check(_, link, _) => link.Up?
    case Settle(_, link, _) => link.Up?
    case _ => true
  }

  /** No store call fails. */
  predicate Calm(events: seq<Event>) {
    forall i :: 0 <= i < |events| ==> GetsThrough(events[i])
  }

  predicate Fits(c: Config, s: State, e: Event, app: string, l: Limits) {
    Tame(c, s, e, app, l.cost, l.width) && Gapped(c, s, e, app, l.cost, l.replicas, l.gap) && GetsThrough(e)
  }

  predicate FitRun(c: Config, s: State, events: seq<Event>, app: string, l: Limits)
    requires IsRun(c, s, events)
    decreases |events|
  {
    events == [] || (Fits(c, s, events[0], app, l) && FitRun(c, Step(c, s, events[0]), events[1..], app, l))
  }

  lemma {:induction false} FitRunIsAll(c: Config, s: State, events: seq<Event>, app: string, l: Limits)
    requires IsRun(c, s, events) && FitRun(c, s, events, app, l)
    ensures TameRun(c, s, events, app, l.cost, l.width)
    ensures GappedRun(c, s, events, app, l.cost, l.replicas, l.gap)
    ensures Calm(events)
    decreases |events|
  {
    if events != [] {
      var rest := events[1..];
      FitRunIsAll(c, Step(c, s, events[0]), rest, app, l);
      assert forall i :: 0 < i < |events| ==> events[i] == rest[i - 1];
    }
  }

  /** `events` lead from `s` to `t` within the limits, with `lates` late passes in the current window. */
  predicate Reaches(c: Config, s: State, events: seq<Event>, t: State, app: string, l: Limits, lates: nat) {
    && IsRun(c, s, events) && Run(c, s, events) == t && FitRun(c, s, events, app, l)
    && t.meter.now == s.meter.now
    && LatePasses(c, s, events, app, WindowOf(Tokens, s.meter.now)) == lates
  }

  lemma {:induction false} ReachFirst(c: Config, s: State, e: Event, rest: seq<Event>, t: State, app: string, l: Limits, lates: nat)
    requires Enabled(s, e) && Fits(c, s, e, app, l) && !e.Tick? && Reaches(c, Step(c, s, e), rest, t, app, l, lates)
    ensures
      var late := if LatePass(c, s, e, app, WindowOf(Tokens, s.meter.now)) then 1 else 0;
      Reaches(c, s, [e] + rest, t, app, l, late + lates)
  {
    NowAfter(c, s, e);
    assert ([e] + rest)[1..] == rest;
  }

  lemma {:induction false} ReachThen(
    c: Config, s: State, a: seq<Event>, mid: State, m: nat, b: seq<Event>, t: State, n: nat, app: string, l: Limits)
    requires Reaches(c, s, a, mid, app, l, m) && Reaches(c, mid, b, t, app, l, n)
    ensures Reaches(c, s, a + b, t, app, l, m + n)
  {
    RunConcat(c, s, a, b);
    FitConcat(c, s, a, b, app, l);
    LatesConcat(c, s, a, b, app, WindowOf(Tokens, s.meter.now));
  }

  lemma {:induction false} FitConcat(c: Config, s: State, a: seq<Event>, b: seq<Event>, app: string, l: Limits)
    requires IsRun(c, s, a) && IsRun(c, Run(c, s, a), b) && IsRun(c, s, a + b)
    requires FitRun(c, s, a, app, l) && FitRun(c, Run(c, s, a), b, app, l)
    ensures FitRun(c, s, a + b, app, l)
    decreases |a|
  {
    if a == [] {
      assert a + b == b;
    } else {
      assert (a + b)[1..] == a[1..] + b;
      FitConcat(c, Step(c, s, a[0]), a[1..], b, app, l);
    }
  }

  lemma {:induction false} LatesConcat(c: Config, s: State, a: seq<Event>, b: seq<Event>, app: string, window: nat)
    requires IsRun(c, s, a) && IsRun(c, Run(c, s, a), b) && IsRun(c, s, a + b)
    ensures LatePasses(c, s, a + b, app, window) == LatePasses(c, s, a, app, window) + LatePasses(c, Run(c, s, a), b, app, window)
    decreases |a|
  {
    if a == [] {
      assert a + b == b;
    } else {
      assert (a + b)[1..] == a[1..] + b;
      LatesConcat(c, Step(c, s, a[0]), a[1..], b, app, window);
    }
  }

  // ---- slots, one app only ----

  function Filled(app: string, n: nat): Slots.State {
    if n == 0 then Slots.Empty() else Slots.Claim(Filled(app, n - 1), app)
  }

  /** There is room for one more beside `n`. */
  predicate Room(c: Slots.Config, app: string, n: nat) {
    (At(c.ceilings, app) <= 0 || n < At(c.ceilings, app)) && (c.global <= 0 || n < c.global)
  }

  /** Every one of the places finds room beside those before it. */
  ghost predicate RoomFor(c: Slots.Config, app: string, places: seq<nat>) {
    forall n: nat, r: nat :: n < Occurs(places, r) ==> Room(c, app, n)
  }

  lemma {:induction false} FilledFacts(c: Slots.Config, app: string, n: nat)
    ensures At(Filled(app, n).inFlight, app) == n && Filled(app, n).total == n && Slots.Clean(Filled(app, n))
    ensures Room(c, app, n) <==> Slots.Decide(c, Filled(app, n), app).Granted?
    ensures Slots.Release(Filled(app, n + 1), app) == Filled(app, n)
  {
    if n > 0 {
      FilledFacts(c, app, n - 1);
      Slots.ReleaseUndoesClaim(Filled(app, n - 1), app);
    }
    Slots.ReleaseUndoesClaim(Filled(app, n), app);
  }

  function Occurs(places: seq<nat>, replica: nat): nat {
    if places == [] then 0
    else Occurs(places[..|places| - 1], replica) + if places[|places| - 1] == replica then 1 else 0
  }

  lemma {:induction false} OccursPush(places: seq<nat>, next: nat, replica: nat)
    ensures Occurs(places + [next], replica) == Occurs(places, replica) + if next == replica then 1 else 0
  {
    assert (places + [next])[..|places|] == places;
  }

  lemma {:induction false} OccursPrefix(places: seq<nat>, n: nat, replica: nat)
    requires n <= |places|
    ensures Occurs(places[..n], replica) <= Occurs(places, replica)
  {
    if n == |places| {
      assert places[..n] == places;
    } else {
      OccursPrefix(places[..|places| - 1], n, replica);
      assert places[..|places| - 1][..n] == places[..n];
    }
  }

  /** `each` places on every replica below `replicas`. */
  function Everywhere(replicas: nat, each: nat): seq<nat> {
    if replicas == 0 then [] else Everywhere(replicas - 1, each) + Repeated(replicas - 1, each)
  }

  function Repeated(replica: nat, each: nat): seq<nat> {
    if each == 0 then [] else Repeated(replica, each - 1) + [replica]
  }

  lemma {:induction false} OccursRepeated(places: seq<nat>, replica: nat, each: nat, r: nat)
    ensures |Repeated(replica, each)| == each
    ensures Occurs(places + Repeated(replica, each), r) == Occurs(places, r) + if r == replica then each else 0
  {
    if each == 0 {
      assert places + [] == places;
    } else {
      OccursRepeated(places, replica, each - 1, r);
      OccursPush(places + Repeated(replica, each - 1), replica, r);
      assert places + Repeated(replica, each) == places + Repeated(replica, each - 1) + [replica];
    }
  }

  lemma {:induction false} OccursEverywhere(replicas: nat, each: nat, r: nat)
    ensures |Everywhere(replicas, each)| == replicas * each
    ensures Occurs(Everywhere(replicas, each), r) == if r < replicas then each else 0
  {
    if replicas > 0 {
      OccursEverywhere(replicas - 1, each, r);
      OccursRepeated(Everywhere(replicas - 1, each), replicas - 1, each, r);
      OneReplicaMore(replicas, each);
    }
  }

  lemma {:induction false} PlacesBelow(replicas: nat, each: nat, k: nat)
    requires k < |Everywhere(replicas, each)|
    ensures Everywhere(replicas, each)[k] < replicas
  {
    var front := Everywhere(replicas - 1, each);
    if k < |front| {
      PlacesBelow(replicas - 1, each, k);
    } else {
      RepeatedIs(replicas - 1, each, k - |front|);
    }
  }

  lemma {:induction false} RepeatedIs(replica: nat, each: nat, k: nat)
    requires k < |Repeated(replica, each)|
    ensures Repeated(replica, each)[k] == replica
  {
    if k < |Repeated(replica, each - 1)| {
      RepeatedIs(replica, each - 1, k);
    }
  }

  // ---- the play ----

  /** Who takes part: request `i` goes to replica `spots[i]`; all were counted by `ready`, and the rest happens at `now`. */
  datatype Play = Play(app: string, spots: seq<nat>, ready: nat, now: nat)

  /**
   * Ids from `base` to `held` hold their slots, those from `from` to `top` stand past the check,
   * those from `top` on have been counted and wait; all others are done.
   */
  datatype Scene = Scene(base: nat, held: nat, from: nat, top: nat, spent: int)

  predicate Staged(phase: Phase, x: Scene, ready: nat, id: nat) {
    if x.base <= id < x.held then phase == Holding
    else if x.from <= id < x.top then phase == Checked
    else if x.top <= id then phase.Counted? && phase.since <= ready
    else phase == Ended
  }

  predicate Placed(s: State, p: Play, x: Scene, id: nat) {
    if id >= |p.spots| then id !in s.requests
    else
      && id in s.requests && s.requests[id].app == p.app && s.requests[id].replica == p.spots[id]
      && Staged(s.requests[id].phase, x, p.ready, id)
  }

  /** `spent` in the current window, nothing before. */
  ghost predicate Money(m: Ledger.Meter, now: nat, app: string, spent: int) {
    && m.now == now && Ledger.Refines(m)
    && Ledger.Total(m.history, Tokens, app, WindowOf(Tokens, now)) == spent
    && forall window: nat :: window < WindowOf(Tokens, now) ==> Ledger.Total(m.history, Tokens, app, window) == 0
  }

  ghost predicate Shows(s: State, p: Play, x: Scene) {
    && x.base <= x.held <= x.from <= x.top <= |p.spots| && p.ready < p.now
    && Money(s.meter, p.now, p.app, x.spent)
    && (forall replica :: SlotsOf(s, replica) == Filled(p.app, Occurs(p.spots[x.base..x.held], replica)))
    && (forall id: nat :: Placed(s, p, x, id))
  }

  /** With no holders the scene may be read from any earlier base. */
  lemma {:induction false} Rebased(s: State, p: Play, x: Scene)
    requires Shows(s, p, x) && x.base == x.held
    ensures Shows(s, p, x.(base := x.from, held := x.from))
  {
    var y := x.(base := x.from, held := x.from);
    assert p.spots[y.base..y.held] == p.spots[x.base..x.held];
    forall id: nat ensures Placed(s, p, y, id) {
      assert Placed(s, p, x, id);
    }
  }

  /** The next one counted passes the check, on the counter of the stamp's window. */
  lemma {:induction false} Admit(c: Config, s: State, p: Play, x: Scene, clock: nat, l: Limits)
    returns (events: seq<Event>, t: State)
    requires Shows(s, p, x) && x.top < |p.spots| && At(c.budgets, p.app) >= 1
    requires p.ready <= clock && Timely(Tokens, Moment(clock, p.now))
    requires Spend(s, p.app, WindowOf(Tokens, clock)) < At(c.budgets, p.app)
    ensures Reaches(c, s, events, t, p.app, l, if WindowOf(Tokens, clock) < WindowOf(Tokens, p.now) then 1 else 0)
    ensures Shows(t, p, x.(top := x.top + 1))
  {
    assert Placed(s, p, x, x.top);
    var check := Check(x.top, QuotaStore.Up, clock);
    CheckPassesUnderBudget(c, s, check);
    t := Step(c, s, check);
    ReachFirst(c, s, check, [], t, p.app, l, 0);
    events := [check] + [];
    ShownAfterAdmit(s, t, p, x);
  }

  lemma {:induction false} ShownAfterAdmit(s: State, t: State, p: Play, x: Scene)
    requires Shows(s, p, x) && x.top < |p.spots| && x.top in s.requests
    requires t.meter == s.meter && t.slots == s.slots
    requires t.requests == s.requests[x.top := s.requests[x.top].(phase := Checked)]
    ensures Shows(t, p, x.(top := x.top + 1))
  {
    var y := x.(top := x.top + 1);
    assert forall replica :: SlotsOf(t, replica) == SlotsOf(s, replica);
    forall id: nat ensures Placed(t, p, y, id) {
      assert Placed(s, p, x, id);
    }
  }

  /** The first who stands past the check takes a slot. */
  lemma {:induction false} TakeSlot(c: Config, s: State, p: Play, x: Scene, l: Limits)
    returns (events: seq<Event>, t: State)
    requires Shows(s, p, x) && x.held == x.from < x.top
    requires Room(c.slots, p.app, Occurs(p.spots[x.base..x.held], p.spots[x.from]))
    ensures Reaches(c, s, events, t, p.app, l, 0)
    ensures Shows(t, p, x.(held := x.held + 1, from := x.from + 1))
  {
    assert Placed(s, p, x, x.from);
    var claim := Claim(x.from);
    FilledFacts(c.slots, p.app, Occurs(p.spots[x.base..x.held], p.spots[x.from]));
    t := Step(c, s, claim);
    ReachFirst(c, s, claim, [], t, p.app, l, 0);
    events := [claim] + [];
    ShownAfterTake(s, t, p, x);
  }

  lemma {:induction false} ShownAfterTake(s: State, t: State, p: Play, x: Scene)
    requires Shows(s, p, x) && x.held == x.from < x.top && x.from in s.requests
    requires t.meter == s.meter && t.requests == s.requests[x.from := s.requests[x.from].(phase := Holding)]
    requires t.slots == s.slots[p.spots[x.from] := Slots.Claim(SlotsOf(s, p.spots[x.from]), p.app)]
    ensures Shows(t, p, x.(held := x.held + 1, from := x.from + 1))
  {
    var y := x.(held := x.held + 1, from := x.from + 1);
    var before, spot := p.spots[x.base..x.held], p.spots[x.from];
    assert p.spots[y.base..y.held] == before + [spot];
    forall replica ensures SlotsOf(t, replica) == Filled(p.app, Occurs(p.spots[y.base..y.held], replica)) {
      OccursPush(before, spot, replica);
      assert SlotsOf(s, replica) == Filled(p.app, Occurs(before, replica));
    }
    forall id: nat ensures Placed(t, p, y, id) {
      assert Placed(s, p, x, id);
    }
  }

  // ---- serving the last holder ----

  function Span(lo: nat, hi: nat): (ids: set<nat>)
    requires lo <= hi
    ensures |ids| == hi - lo && forall id: nat :: id in ids <==> lo <= id < hi
    decreases hi - lo
  {
    if lo == hi then {} else Span(lo + 1, hi) + {lo}
  }

  /** What serving leaves to be settled and gated. */
  lemma {:induction false} FewUnsettled(s: State, p: Play, x: Scene, t: State, cost: int)
    requires Shows(s, p, x) && x.base < x.held && x.held - 1 in s.requests
    requires t.requests == s.requests[x.held - 1 := s.requests[x.held - 1].(phase := Served(cost, p.now))]
    ensures |Unsettled(t, p.app)| <= x.held - x.base + x.top - x.from
    ensures |Unclaimed(t, p.app)| <= x.top - x.from
  {
    var holders, waiting := Span(x.base, x.held), Span(x.from, x.top);
    forall other | other in Unsettled(t, p.app) ensures other in holders + waiting {
      assert Placed(s, p, x, other);
    }
    Ledger.Subset(Unsettled(t, p.app), holders + waiting);
    UnionSize(holders, waiting);
    forall other | other in Unclaimed(t, p.app) ensures other in waiting {
      assert Placed(s, p, x, other);
    }
    Ledger.Subset(Unclaimed(t, p.app), waiting);
  }

  /** The last holder is served at `price`, settles and goes. */
  lemma {:induction false} Deliver(c: Config, s: State, p: Play, x: Scene, price: nat, l: Limits)
    returns (events: seq<Event>, t: State)
    requires Shows(s, p, x) && x.base < x.held && 1 <= price <= l.cost && At(c.budgets, p.app) >= 1
    requires x.held - x.base + x.top - x.from <= l.width && x.top - x.from <= l.gap
    ensures Reaches(c, s, events, t, p.app, l, 0)
    ensures Shows(t, p, x.(held := x.held - 1, spent := x.spent + price))
  {
    var id := x.held - 1;
    assert Placed(s, p, x, id);
    var serve := Serve(id, ModelProvider("", "", ""), Usage(price, 0, price), 0, false);
    var s1 := Step(c, s, serve);
    FewUnsettled(s, p, x, s1, price);
    var s2 := Paid(c, s, s1, p, x, price, id);
    t := Step(c, s2, Finish(id));
    SettleThenFinish(c, s1, s2, t, id, p.app, l);
    var rest := [Settle(id, QuotaStore.Up, p.now), Finish(id)];
    ServeThen(c, s, serve, rest, t, p.app, l);
    events := [serve] + rest;
    ShownAfterDelivery(c, s, t, p, x, price);
  }

  lemma {:induction false} ServeThen(c: Config, s: State, serve: Event, rest: seq<Event>, t: State, app: string, l: Limits)
    requires serve.Serve? && Enabled(s, serve) && serve.usage.prompt + serve.usage.completion <= l.cost
    requires Reaches(c, Step(c, s, serve), rest, t, app, l, 0)
    ensures Reaches(c, s, [serve] + rest, t, app, l, 0)
  {
    ReachFirst(c, s, serve, rest, t, app, l, 0);
  }

  lemma {:induction false} SettleThenFinish(c: Config, s: State, mid: State, t: State, id: nat, app: string, l: Limits)
    requires
      var settle := Settle(id, QuotaStore.Up, s.meter.now);
      Enabled(s, settle) && mid == Step(c, s, settle) && Fits(c, s, settle, app, l)
    requires Enabled(mid, Finish(id)) && t == Step(c, mid, Finish(id))
    ensures Reaches(c, s, [Settle(id, QuotaStore.Up, s.meter.now), Finish(id)], t, app, l, 0)
  {
    ReachFirst(c, mid, Finish(id), [], t, app, l, 0);
    ReachFirst(c, s, Settle(id, QuotaStore.Up, s.meter.now), [Finish(id)], t, app, l, 0);
    assert [Settle(id, QuotaStore.Up, s.meter.now)] + [Finish(id)] == [Settle(id, QuotaStore.Up, s.meter.now), Finish(id)];
  }

  lemma {:induction false} InTime(c: Currency, now: nat)
    ensures Timely(c, Moment(now, now))
  {
  }

  lemma {:induction false} Paid(c: Config, s: State, s1: State, p: Play, x: Scene, price: nat, id: nat)
    returns (t: State)
    requires Shows(s, p, x) && price >= 1 && At(c.budgets, p.app) >= 1
    requires id in s.requests && s.requests[id].app == p.app && s.requests[id].phase == Holding
    requires s1.meter == s.meter && s1.slots == s.slots
    requires s1.requests == s.requests[id := s.requests[id].(phase := Served(price, p.now))]
    ensures
      var settle := Settle(id, QuotaStore.Up, p.now);
      && Enabled(s1, settle) && t == Step(c, s1, settle)
      && t.slots == s.slots && t.requests == s.requests[id := s.requests[id].(phase := Closing)]
      && Money(t.meter, p.now, p.app, x.spent + price)
  {
    var settle := Settle(id, QuotaStore.Up, p.now);
    InTime(Tokens, p.now);
    t := Step(c, s1, settle);
    StepRefines(c, s1, settle);
    forall window: nat
      ensures Spend(t, p.app, window) == Spend(s, p.app, window) + if window == WindowOf(Tokens, p.now) then price else 0
    {
      SpendAfter(c, s1, settle, p.app, window);
    }
  }

  lemma {:induction false} ShownAfterDelivery(c: Config, s: State, t: State, p: Play, x: Scene, price: nat)
    requires Shows(s, p, x) && x.base < x.held && x.held - 1 in s.requests
    requires
      var id := x.held - 1;
      && t.requests == s.requests[id := s.requests[id].(phase := Ended)]
      && t.slots == s.slots[p.spots[id] := Slots.Release(SlotsOf(s, p.spots[id]), p.app)]
    requires Money(t.meter, p.now, p.app, x.spent + price)
    ensures Shows(t, p, x.(held := x.held - 1, spent := x.spent + price))
  {
    var y := x.(held := x.held - 1, spent := x.spent + price);
    var front, spot := p.spots[y.base..y.held], p.spots[y.held];
    assert p.spots[x.base..x.held] == front + [spot];
    forall replica ensures SlotsOf(t, replica) == Filled(p.app, Occurs(front, replica)) {
      OccursPush(front, spot, replica);
      assert SlotsOf(s, replica) == Filled(p.app, Occurs(front + [spot], replica));
      FilledFacts(c.slots, p.app, Occurs(front, spot));
    }
    forall id: nat ensures Placed(t, p, y, id) {
      assert Placed(s, p, x, id);
    }
  }

  // ---- whole stretches ----

  predicate Idle(x: Scene) {
    x.base == x.held && x.from == x.top
  }

  /** One request alone, from the check to its settlement. */
  lemma {:induction false} PassOne(c: Config, s: State, p: Play, x: Scene, price: nat, clock: nat, l: Limits)
    returns (events: seq<Event>, t: State, y: Scene)
    requires Shows(s, p, x) && Idle(x) && x.top < |p.spots| && 1 <= price <= l.cost && l.width >= 1
    requires At(c.budgets, p.app) >= 1 && p.ready <= clock && Timely(Tokens, Moment(clock, p.now))
    requires Spend(s, p.app, WindowOf(Tokens, clock)) < At(c.budgets, p.app)
    ensures Reaches(c, s, events, t, p.app, l, if WindowOf(Tokens, clock) < WindowOf(Tokens, p.now) then 1 else 0)
    ensures Shows(t, p, y) && Idle(y) && y.top == x.top + 1 && y.spent == x.spent + price
  {
    var first, s1 := Admit(c, s, p, x, clock, l);
    var x1 := x.(top := x.top + 1);
    Rebased(s1, p, x1);
    x1 := x1.(base := x1.from, held := x1.from);
    assert p.spots[x1.base..x1.held] == [];
    var second, s2 := TakeSlot(c, s1, p, x1, l);
    var x2 := x1.(held := x1.held + 1, from := x1.from + 1);
    var third;
    third, t := Deliver(c, s2, p, x2, price, l);
    y := x2.(held := x2.held - 1, spent := x2.spent + price);
    var late := if WindowOf(Tokens, clock) < WindowOf(Tokens, p.now) then 1 else 0;
    ReachThen(c, s, first, s1, late, second, s2, 0, p.app, l);
    ReachThen(c, s, first + second, s2, late, third, t, 0, p.app, l);
    events := first + second + third;
  }

  /** `n` requests, one token each. */
  lemma {:induction false} WorkDown(c: Config, s: State, p: Play, x: Scene, n: nat, l: Limits)
    returns (events: seq<Event>, t: State, y: Scene)
    requires Shows(s, p, x) && Idle(x) && x.top + n <= |p.spots| && l.cost >= 1 && l.width >= 1
    requires x.spent + n < At(c.budgets, p.app) && At(c.budgets, p.app) >= 1
    ensures Reaches(c, s, events, t, p.app, l, 0)
    ensures Shows(t, p, y) && Idle(y) && y.top == x.top + n && y.spent == x.spent + n
    decreases n
  {
    if n == 0 {
      events, t, y := [], s, x;
    } else {
      InTime(Tokens, p.now);
      var first, mid, x1 := PassOne(c, s, p, x, 1, p.now, l);
      var rest;
      rest, t, y := WorkDown(c, mid, p, x1, n - 1, l);
      ReachThen(c, s, first, mid, 0, rest, t, 0, p.app, l);
      events := first + rest;
    }
  }

  /** `n` requests, each checked on the counter of the window before: stamped just before it ended, answered after. */
  lemma {:induction false} ComeLate(c: Config, s: State, p: Play, x: Scene, n: nat, l: Limits)
    returns (events: seq<Event>, t: State, y: Scene)
    requires Shows(s, p, x) && Idle(x) && x.top + n <= |p.spots| && l.cost >= 1 && l.width >= 1
    requires At(c.budgets, p.app) >= 1 && p.now >= 1 && p.now % Width(Tokens) == 0
    ensures Reaches(c, s, events, t, p.app, l, n)
    ensures Shows(t, p, y) && Idle(y) && y.spent == x.spent + n * l.cost
    decreases n
  {
    if n == 0 {
      events, t, y := [], s, x;
    } else {
      JustBefore(p.now);
      var first, mid, x1 := PassOne(c, s, p, x, l.cost, p.now - 1, l);
      var rest;
      rest, t, y := ComeLate(c, mid, p, x1, n - 1, l);
      ReachThen(c, s, first, mid, 1, rest, t, n - 1, p.app, l);
      events := first + rest;
      OneFewer(n, l.cost);
    }
  }

  lemma {:induction false} JustBefore(now: nat)
    requires now >= 1 && now % Width(Tokens) == 0
    ensures Timely(Tokens, Moment(now - 1, now)) && WindowOf(Tokens, now - 1) < WindowOf(Tokens, now)
  {
  }

  /** `n` more take their slots, while the window is under budget. */
  lemma {:induction false} TakePlaces(c: Config, s: State, p: Play, x: Scene, places: seq<nat>, n: nat, l: Limits)
    returns (events: seq<Event>, t: State, y: Scene)
    requires Shows(s, p, x) && x.held == x.from == x.top && x.top + n <= |p.spots|
    requires x.spent < At(c.budgets, p.app) && At(c.budgets, p.app) >= 1
    requires places == p.spots[x.base..x.top + n] && RoomFor(c.slots, p.app, places)
    ensures Reaches(c, s, events, t, p.app, l, 0)
    ensures Shows(t, p, y) && y == x.(held := x.held + n, from := x.from + n, top := x.top + n)
    decreases n
  {
    if n == 0 {
      events, t, y := [], s, x;
    } else {
      var first, mid := TakeNext(c, s, p, x, places, n, l);
      var rest;
      rest, t, y := TakePlaces(c, mid, p, x.(held := x.held + 1, from := x.from + 1, top := x.top + 1), places, n - 1, l);
      ReachThen(c, s, first, mid, 0, rest, t, 0, p.app, l);
      events := first + rest;
    }
  }

  lemma {:induction false} TakeNext(c: Config, s: State, p: Play, x: Scene, places: seq<nat>, n: nat, l: Limits)
    returns (events: seq<Event>, t: State)
    requires Shows(s, p, x) && x.held == x.from == x.top && n > 0 && x.top + n <= |p.spots|
    requires x.spent < At(c.budgets, p.app) && At(c.budgets, p.app) >= 1
    requires places == p.spots[x.base..x.top + n] && RoomFor(c.slots, p.app, places)
    ensures Reaches(c, s, events, t, p.app, l, 0)
    ensures Shows(t, p, x.(held := x.held + 1, from := x.from + 1, top := x.top + 1))
  {
    InTime(Tokens, p.now);
    var first, mid := Admit(c, s, p, x, p.now, l);
    RoomForNext(c, p, x, places, n);
    var second;
    second, t := TakeSlot(c, mid, p, x.(top := x.top + 1), l);
    ReachThen(c, s, first, mid, 0, second, t, 0, p.app, l);
    events := first + second;
  }

  lemma {:induction false} RoomForNext(c: Config, p: Play, x: Scene, places: seq<nat>, n: nat)
    requires x.base <= x.held == x.top && n > 0 && x.top + n <= |p.spots|
    requires places == p.spots[x.base..x.top + n] && RoomFor(c.slots, p.app, places)
    ensures Room(c.slots, p.app, Occurs(p.spots[x.base..x.held], p.spots[x.top]))
  {
    var before, spot := p.spots[x.base..x.held], p.spots[x.top];
    assert places[..|before| + 1] == before + [spot];
    OccursPush(before, spot, spot);
    OccursPrefix(places, |before| + 1, spot);
  }

  /** `n` more stand past the check. */
  lemma {:induction false} QueueUp(c: Config, s: State, p: Play, x: Scene, n: nat, l: Limits)
    returns (events: seq<Event>, t: State)
    requires Shows(s, p, x) && x.top + n <= |p.spots|
    requires x.spent < At(c.budgets, p.app) && At(c.budgets, p.app) >= 1
    ensures Reaches(c, s, events, t, p.app, l, 0)
    ensures Shows(t, p, x.(top := x.top + n))
    decreases n
  {
    if n == 0 {
      events, t := [], s;
    } else {
      InTime(Tokens, p.now);
      var first, mid := Admit(c, s, p, x, p.now, l);
      var rest;
      rest, t := QueueUp(c, mid, p, x.(top := x.top + 1), n - 1, l);
      ReachThen(c, s, first, mid, 0, rest, t, 0, p.app, l);
      events := first + rest;
    }
  }

  /** Every holder is served at full cost. */
  lemma {:induction false} ServeHolders(c: Config, s: State, p: Play, x: Scene, l: Limits)
    returns (events: seq<Event>, t: State, y: Scene)
    requires Shows(s, p, x) && l.cost >= 1 && At(c.budgets, p.app) >= 1
    requires x.held - x.base + x.top - x.from <= l.width && x.top - x.from <= l.gap
    ensures Reaches(c, s, events, t, p.app, l, 0)
    ensures Shows(t, p, y) && y == x.(held := x.base, spent := x.spent + (x.held - x.base) * l.cost)
    decreases x.held - x.base
  {
    if x.base == x.held {
      events, t, y := [], s, x;
    } else {
      var first, mid := Deliver(c, s, p, x, l.cost, l);
      var rest;
      rest, t, y := ServeHolders(c, mid, p, x.(held := x.held - 1, spent := x.spent + l.cost), l);
      ReachThen(c, s, first, mid, 0, rest, t, 0, p.app, l);
      events := first + rest;
      OneFewer(x.held - x.base, l.cost);
    }
  }

  /** Everybody waiting goes through a slot, one after another. */
  lemma {:induction false} ServeQueue(c: Config, s: State, p: Play, x: Scene, l: Limits)
    returns (events: seq<Event>, t: State, y: Scene)
    requires Shows(s, p, x) && x.base == x.held && l.cost >= 1 && At(c.budgets, p.app) >= 1
    requires x.top - x.from <= l.width && x.top - x.from <= l.gap
    ensures Reaches(c, s, events, t, p.app, l, 0)
    ensures Shows(t, p, y) && Idle(y) && y.top == x.top && y.spent == x.spent + (x.top - x.from) * l.cost
    decreases x.top - x.from
  {
    if x.from == x.top {
      events, t, y := [], s, x;
    } else {
      var first, mid, x1 := ServeNext(c, s, p, x, l);
      var rest;
      rest, t, y := ServeQueue(c, mid, p, x1, l);
      ReachThen(c, s, first, mid, 0, rest, t, 0, p.app, l);
      events := first + rest;
      OneFewer(x.top - x.from, l.cost);
    }
  }

  lemma {:induction false} ServeNext(c: Config, s: State, p: Play, x: Scene, l: Limits)
    returns (events: seq<Event>, t: State, y: Scene)
    requires Shows(s, p, x) && x.base == x.held && x.from < x.top && l.cost >= 1 && At(c.budgets, p.app) >= 1
    requires x.top - x.from <= l.width && x.top - x.from <= l.gap
    ensures Reaches(c, s, events, t, p.app, l, 0)
    ensures Shows(t, p, y) && y.base == y.held && y.from == x.from + 1 && y.top == x.top && y.spent == x.spent + l.cost
  {
    Rebased(s, p, x);
    var x1 := x.(base := x.from, held := x.from);
    assert p.spots[x1.base..x1.held] == [];
    var first, mid := TakeSlot(c, s, p, x1, l);
    var x2 := x1.(held := x1.held + 1, from := x1.from + 1);
    var second;
    second, t := Deliver(c, mid, p, x2, l.cost, l);
    y := x2.(held := x2.held - 1, spent := x2.spent + l.cost);
    ReachThen(c, s, first, mid, 0, second, t, 0, p.app, l);
    events := first + second;
  }

  // ---- before the window: everybody arrives and is counted, one a second ----

  /** `n` requests have been counted in as many seconds; no token has been spent, and this second nobody was counted. */
  ghost predicate Gathered(s: State, app: string, spots: seq<nat>, n: nat) {
    && n <= |spots| && s.meter.now == n * SECOND && Ledger.Refines(s.meter)
    && (forall window: nat :: Ledger.Total(s.meter.history, Tokens, app, window) == 0)
    && (forall second: nat :: second >= n ==> Ledger.Total(s.meter.history, Requests, app, second) == 0)
    && (forall replica :: SlotsOf(s, replica) == Slots.Empty())
    && (forall id: nat :: Waiting(s, app, spots, n, id))
  }

  predicate Waiting(s: State, app: string, spots: seq<nat>, n: nat, id: nat)
    requires n <= |spots|
  {
    if id >= n then id !in s.requests
    else
      && id in s.requests && s.requests[id].app == app && s.requests[id].replica == spots[id]
      && s.requests[id].phase.Counted? && s.requests[id].phase.since <= n * SECOND
  }

  /** `events` lead from `s` to `t` within the limits, with no check among them. */
  predicate Gathers(c: Config, s: State, events: seq<Event>, t: State, app: string, l: Limits) {
    && IsRun(c, s, events) && Run(c, s, events) == t && FitRun(c, s, events, app, l)
    && forall i :: 0 <= i < |events| ==> !events[i].Check?
  }

  lemma {:induction false} GatherFirst(c: Config, s: State, e: Event, rest: seq<Event>, t: State, app: string, l: Limits)
    requires Enabled(s, e) && Fits(c, s, e, app, l) && !e.Check? && Gathers(c, Step(c, s, e), rest, t, app, l)
    ensures Gathers(c, s, [e] + rest, t, app, l)
  {
    assert ([e] + rest)[1..] == rest;
  }

  lemma {:induction false} GatherThen(c: Config, s: State, a: seq<Event>, mid: State, b: seq<Event>, t: State, app: string, l: Limits)
    requires Gathers(c, s, a, mid, app, l) && Gathers(c, mid, b, t, app, l)
    ensures Gathers(c, s, a + b, t, app, l)
  {
    RunConcat(c, s, a, b);
    FitConcat(c, s, a, b, app, l);
  }

  lemma {:induction false} NoChecksNoLates(c: Config, s: State, events: seq<Event>, app: string, window: nat)
    requires IsRun(c, s, events) && forall i :: 0 <= i < |events| ==> !events[i].Check?
    ensures LatePasses(c, s, events, app, window) == 0
    decreases |events|
  {
    if events != [] {
      assert !events[0].Check?;
      NoChecksNoLates(c, Step(c, s, events[0]), events[1..], app, window);
    }
  }

  /** With nobody counted this second, any quota lets one through. */
  lemma {:induction false} CountGetsThrough(c: Config, s: State, app: string, spots: seq<nat>, n: nat, s1: State)
    requires Gathered(s, app, spots, n) && n < |spots|
    requires s1.meter == s.meter && n in s1.requests && s1.requests[n].app == app
    ensures Passes(CountVerdict(c, s1, n, QuotaStore.Up, s.meter.now))
  {
    InTime(Requests, s.meter.now);
    Ledger.CounterReadsLedger(s.meter, Requests, app, s.meter.now);
    assert WindowOf(Requests, n * SECOND) == n;
  }

  lemma {:induction false} GatherOne(c: Config, s: State, app: string, spots: seq<nat>, n: nat, l: Limits)
    returns (events: seq<Event>, t: State)
    requires Gathered(s, app, spots, n) && n < |spots| && spots[n] < l.replicas
    ensures Gathers(c, s, events, t, app, l)
    ensures Gathered(t, app, spots, n + 1)
  {
    var now := s.meter.now;
    var arrive, count, tick := Arrive(n, app, spots[n]), Count(n, QuotaStore.Up, now), Tick(SECOND);
    assert Waiting(s, app, spots, n, n);
    var s1 := Step(c, s, arrive);
    InTime(Requests, now);
    CountGetsThrough(c, s, app, spots, n, s1);
    var s2 := Step(c, s1, count);
    t := Step(c, s2, tick);
    GatherFirst(c, s2, tick, [], t, app, l);
    GatherFirst(c, s1, count, [tick], t, app, l);
    GatherFirst(c, s, arrive, [count] + [tick], t, app, l);
    events := [arrive] + ([count] + [tick]);
    StepRefines(c, s1, count);
    StepRefines(c, s2, tick);
    GatheredAfter(c, s, s1, s2, t, app, spots, n);
  }

  lemma {:induction false} GatheredAfter(c: Config, s: State, s1: State, s2: State, t: State, app: string, spots: seq<nat>, n: nat)
    requires Gathered(s, app, spots, n) && n < |spots| && s1.meter == s.meter && Ledger.Refines(t.meter)
    requires n in s1.requests && s1.requests[n].app == app
    requires
      var count := Count(n, QuotaStore.Up, s.meter.now);
      Enabled(s1, count) && s2 == Step(c, s1, count)
    requires t.meter == s2.meter.(now := s.meter.now + SECOND) && t.slots == s.slots
    requires t.requests == s.requests[n := Request(app, spots[n], Counted(s.meter.now))]
    ensures Gathered(t, app, spots, n + 1)
  {
    assert (n + 1) * SECOND == n * SECOND + SECOND;
    CountCharges(c, s1, app, n);
    assert WindowOf(Requests, n * SECOND) == n;
    assert forall replica :: SlotsOf(t, replica) == SlotsOf(s, replica);
    var m := n + 1;
    forall id: nat ensures Waiting(t, app, spots, m, id) {
      assert Waiting(s, app, spots, n, id);
    }
  }

  /** Counting leaves every total alone but that of its own second. */
  lemma {:induction false} CountCharges(c: Config, s: State, app: string, id: nat)
    requires id in s.requests && s.requests[id].app == app && Enabled(s, Count(id, QuotaStore.Up, s.meter.now))
    ensures
      var after := Step(c, s, Count(id, QuotaStore.Up, s.meter.now)).meter.history;
      && (forall window: nat :: Ledger.Total(after, Tokens, app, window) == Ledger.Total(s.meter.history, Tokens, app, window))
      && (forall second: nat :: second != WindowOf(Requests, s.meter.now) ==>
            Ledger.Total(after, Requests, app, second) == Ledger.Total(s.meter.history, Requests, app, second))
  {
    var after := Step(c, s, Count(id, QuotaStore.Up, s.meter.now)).meter.history;
    var charge := Ledger.Charge(Requests, app, s.meter.now, 1);
    assert after == s.meter.history || after == s.meter.history + [charge];
    forall window: nat ensures Ledger.Total(after, Tokens, app, window) == Ledger.Total(s.meter.history, Tokens, app, window) {
      Ledger.TotalPush(s.meter.history, charge, Tokens, app, window);
    }
    forall second: nat | second != WindowOf(Requests, s.meter.now)
      ensures Ledger.Total(after, Requests, app, second) == Ledger.Total(s.meter.history, Requests, app, second)
    {
      Ledger.TotalPush(s.meter.history, charge, Requests, app, second);
    }
  }

  lemma {:induction false} GatherAll(c: Config, s: State, app: string, spots: seq<nat>, n: nat, l: Limits)
    returns (events: seq<Event>, t: State)
    requires Gathered(s, app, spots, n) && forall k :: 0 <= k < |spots| ==> spots[k] < l.replicas
    ensures Gathers(c, s, events, t, app, l)
    ensures Gathered(t, app, spots, |spots|)
    decreases |spots| - n
  {
    if n == |spots| {
      events, t := [], s;
    } else {
      var first, mid := GatherOne(c, s, app, spots, n, l);
      var rest;
      rest, t := GatherAll(c, mid, app, spots, n + 1, l);
      GatherThen(c, s, first, mid, rest, t, app, l);
      events := first + rest;
    }
  }

  /** When the play begins: at the start of a window, after everybody has been counted. */
  function CurtainUp(spots: seq<nat>): nat {
    (|spots| + 1) * Width(Tokens)
  }

  lemma {:induction false} CurtainIsLate(n: nat)
    ensures (n + 1) * Width(Tokens) >= n * SECOND + 1 && ((n + 1) * Width(Tokens)) % Width(Tokens) == 0
  {
  }

  /** Everybody has been counted, and a window begins. */
  lemma {:induction false} OpeningScene(c: Config, app: string, spots: seq<nat>, l: Limits)
    returns (events: seq<Event>, t: State)
    requires forall k :: 0 <= k < |spots| ==> spots[k] < l.replicas
    ensures Gathers(c, Init(0), events, t, app, l)
    ensures Shows(t, Play(app, spots, CurtainUp(spots) - 1, CurtainUp(spots)), Scene(0, 0, 0, 0, 0))
  {
    Ledger.StartRefines(0);
    assert Gathered(Init(0), app, spots, 0);
    var first, mid := GatherAll(c, Init(0), app, spots, 0, l);
    CurtainIsLate(|spots|);
    var tick := Tick(CurtainUp(spots) - mid.meter.now);
    t := Step(c, mid, tick);
    StepRefines(c, mid, tick);
    GatherFirst(c, mid, tick, [], t, app, l);
    GatherThen(c, Init(0), first, mid, [tick] + [], t, app, l);
    events := first + ([tick] + []);
    ShownAtFirst(mid, t, app, spots);
  }

  lemma {:induction false} ShownAtFirst(s: State, t: State, app: string, spots: seq<nat>)
    requires Gathered(s, app, spots, |spots|) && Ledger.Refines(t.meter)
    requires t.meter.now == CurtainUp(spots) && t.meter.history == s.meter.history
    requires t.requests == s.requests && t.slots == s.slots
    ensures Shows(t, Play(app, spots, CurtainUp(spots) - 1, CurtainUp(spots)), Scene(0, 0, 0, 0, 0))
  {
    CurtainIsLate(|spots|);
    var p, x := Play(app, spots, CurtainUp(spots) - 1, CurtainUp(spots)), Scene(0, 0, 0, 0, 0);
    assert spots[0..0] == [];
    assert forall replica :: SlotsOf(t, replica) == SlotsOf(s, replica);
    forall id: nat ensures Placed(t, p, x, id) {
      assert Waiting(s, app, spots, |spots|, id);
    }
  }

  // ---- all the limits allow ----

  /** The cast: those who work the budget down, the holders at their places, the queue and the late. */
  function Cast(budget: nat, places: seq<nat>, queue: nat, lates: nat): seq<nat> {
    Repeated(0, budget) + places + Repeated(0, queue + lates)
  }

  lemma {:induction false} CastFacts(budget: nat, places: seq<nat>, queue: nat, lates: nat, replicas: nat)
    requires replicas >= 1 && forall k :: 0 <= k < |places| ==> places[k] < replicas
    ensures
      var spots := Cast(budget, places, queue, lates);
      && |spots| == budget + |places| + queue + lates
      && spots[budget..budget + |places|] == places
      && forall k :: 0 <= k < |spots| ==> spots[k] < replicas
  {
    OccursRepeated([], 0, budget, 0);
    OccursRepeated([], 0, queue + lates, 0);
    var spots := Cast(budget, places, queue, lates);
    forall k | 0 <= k < |spots| ensures spots[k] < replicas {
      if k < budget {
        RepeatedIs(0, budget, k);
      } else if k >= budget + |places| {
        RepeatedIs(0, queue + lates, k - budget - |places|);
      }
    }
  }

  /** The last token, then every slot, then everybody past the check, then the late. */
  lemma {:induction false} Spree(c: Config, app: string, places: seq<nat>, queue: nat, lates: nat, l: Limits)
    returns (events: seq<Event>, t: State, window: nat)
    requires At(c.budgets, app) >= 1 && l.cost >= 1 && l.width >= 1 && l.replicas >= 1
    requires |places| + queue <= l.width && queue <= l.gap
    requires forall k :: 0 <= k < |places| ==> places[k] < l.replicas
    requires RoomFor(c.slots, app, places)
    ensures IsRun(c, Init(0), events) && Run(c, Init(0), events) == t && FitRun(c, Init(0), events, app, l)
    ensures LatePasses(c, Init(0), events, app, window) == lates
    ensures Spend(t, app, window) == At(c.budgets, app) - 1 + (|places| + queue + lates) * l.cost
  {
    var first := At(c.budgets, app) - 1;
    var spots := Cast(first, places, queue, lates);
    CastFacts(first, places, queue, lates, l.replicas);
    var p := Play(app, spots, CurtainUp(spots) - 1, CurtainUp(spots));
    CurtainIsLate(|spots|);
    var before, s := OpeningScene(c, app, spots, l);
    var rest;
    rest, t := Perform(c, s, p, first, places, queue, lates, l);
    window := WindowOf(Tokens, p.now);
    GatherThenPlay(c, before, s, rest, t, app, l, lates);
    events := before + rest;
  }

  lemma {:induction false} GatherThenPlay(
    c: Config, before: seq<Event>, s: State, rest: seq<Event>, t: State, app: string, l: Limits, lates: nat)
    requires Gathers(c, Init(0), before, s, app, l) && Reaches(c, s, rest, t, app, l, lates)
    ensures
      var events := before + rest;
      && IsRun(c, Init(0), events) && Run(c, Init(0), events) == t && FitRun(c, Init(0), events, app, l)
      && LatePasses(c, Init(0), events, app, WindowOf(Tokens, s.meter.now)) == lates
  {
    var window := WindowOf(Tokens, s.meter.now);
    RunConcat(c, Init(0), before, rest);
    FitConcat(c, Init(0), before, rest, app, l);
    LatesConcat(c, Init(0), before, rest, app, window);
    NoChecksNoLates(c, Init(0), before, app, window);
  }

  lemma {:induction false} Perform(
    c: Config, s: State, p: Play, first: nat, places: seq<nat>, queue: nat, lates: nat, l: Limits)
    returns (events: seq<Event>, t: State)
    requires Shows(s, p, Scene(0, 0, 0, 0, 0)) && At(c.budgets, p.app) == first + 1
    requires |p.spots| == first + |places| + queue + lates && p.spots[first..first + |places|] == places
    requires p.now % Width(Tokens) == 0 && l.cost >= 1 && l.width >= 1 && |places| + queue <= l.width && queue <= l.gap
    requires RoomFor(c.slots, p.app, places)
    ensures Reaches(c, s, events, t, p.app, l, lates) && t.meter.now == p.now
    ensures CurrentSpend(t, p.app) == first + (|places| + queue + lates) * l.cost
  {
    var e1, s1, x1 := WorkDown(c, s, p, Scene(0, 0, 0, 0, 0), first, l);
    Rebased(s1, p, x1);
    var e2, s2, x2 := TakePlaces(c, s1, p, x1.(base := x1.from, held := x1.from), places, |places|, l);
    var e3, s3 := QueueUp(c, s2, p, x2, queue, l);
    var e4;
    e4, t := ServeAll(c, s3, p, x2.(top := x2.top + queue), lates, l);
    ReachThen(c, s, e1, s1, 0, e2, s2, 0, p.app, l);
    ReachThen(c, s, e1 + e2, s2, 0, e3, s3, 0, p.app, l);
    ReachThen(c, s, e1 + e2 + e3, s3, 0, e4, t, lates, p.app, l);
    events := e1 + e2 + e3 + e4;
    ThreeParts(|places|, queue, lates, l.cost);
  }

  lemma {:induction false} ServeAll(c: Config, s: State, p: Play, x: Scene, lates: nat, l: Limits)
    returns (events: seq<Event>, t: State)
    requires Shows(s, p, x) && l.cost >= 1 && l.width >= 1 && At(c.budgets, p.app) >= 1 && x.top + lates <= |p.spots|
    requires x.held - x.base + x.top - x.from <= l.width && x.top - x.from <= l.gap && p.now % Width(Tokens) == 0
    ensures Reaches(c, s, events, t, p.app, l, lates) && t.meter.now == p.now
    ensures CurrentSpend(t, p.app) == x.spent + (x.held - x.base) * l.cost + (x.top - x.from) * l.cost + lates * l.cost
  {
    var e1, s1, x1 := ServeHolders(c, s, p, x, l);
    var e2, s2, x2 := ServeQueue(c, s1, p, x1, l);
    var e3, y;
    e3, t, y := ComeLate(c, s2, p, x2, lates, l);
    ReachThen(c, s, e1, s1, 0, e2, s2, 0, p.app, l);
    ReachThen(c, s, e1 + e2, s2, 0, e3, t, lates, p.app, l);
    events := e1 + e2 + e3;
  }

  lemma {:induction false} ThreeParts(a: nat, b: nat, n: nat, cost: nat)
    ensures (a + b + n) * cost == a * cost + b * cost + n * cost
  {
  }

  // ---- the bounds are exact ----

  /**
   * No run held to `width` unsettled requests, and to `lates` late passes in the window, spends more
   * than `bound` in it; with `calm`, no run without a store error does.
   */
  ghost predicate Contains(c: Config, app: string, cost: nat, width: nat, lates: nat, calm: bool, bound: int) {
    forall now, events, window ::
      IsRun(c, Init(now), events) && TameRun(c, Init(now), events, app, cost, width) && (calm ==> Calm(events))
      && LatePasses(c, Init(now), events, app, window) <= lates ==>
        Spend(Run(c, Init(now), events), app, window) <= bound
  }

  /**
   * Whatever the slots, the cap and the request quota, with store errors or without:
   * budget - 1 + (width + lates) * cost is the least number that contains a window's spend.
   */
  lemma {:induction false} OvershootIsExact(c: Config, app: string, cost: nat, width: nat, lates: nat, calm: bool, bound: int)
    requires At(c.budgets, app) >= 1 && cost >= 1 && width >= 1
    ensures Contains(c, app, cost, width, lates, calm, bound) <==> At(c.budgets, app) - 1 + (width + lates) * cost <= bound
  {
    var l := Limits(cost, width, 1, width);
    var events, t, window := Spree(c, app, [], width, lates, l);
    FitRunIsAll(c, Init(0), events, app, l);
    if At(c.budgets, app) - 1 + (width + lates) * cost <= bound {
      forall now, events, window |
        IsRun(c, Init(now), events) && TameRun(c, Init(now), events, app, cost, width) && (calm ==> Calm(events))
        && LatePasses(c, Init(now), events, app, window) <= lates
        ensures Spend(Run(c, Init(now), events), app, window) <= bound
      {
        SoftBudgetBound(c, now, events, app, cost, width, window);
        Times(width + LatePasses(c, Init(now), events, app, window), width + lates, cost);
      }
    }
  }

  /** The same for runs held to a number of replicas and to `gap` requests between check and claim. */
  ghost predicate ContainsGapped(c: Config, app: string, cost: nat, replicas: nat, gap: nat, lates: nat, calm: bool, bound: int) {
    forall now, events, window ::
      IsRun(c, Init(now), events) && GappedRun(c, Init(now), events, app, cost, replicas, gap) && (calm ==> Calm(events))
      && LatePasses(c, Init(now), events, app, window) <= lates ==>
        Spend(Run(c, Init(now), events), app, window) <= bound
  }

  lemma {:induction false} EverywhereFits(c: Slots.Config, app: string, replicas: nat)
    requires At(c.ceilings, app) > 0
    ensures
      var places := Everywhere(replicas, Slots.SlotsPerReplica(c, app));
      && (forall k :: 0 <= k < |places| ==> places[k] < replicas)
      && RoomFor(c, app, places)
  {
    var each := Slots.SlotsPerReplica(c, app);
    forall k | 0 <= k < |Everywhere(replicas, each)| ensures Everywhere(replicas, each)[k] < replicas {
      PlacesBelow(replicas, each, k);
    }
    forall n: nat, r: nat | n < Occurs(Everywhere(replicas, each), r) ensures Room(c, app, n) {
      OccursEverywhere(replicas, each, r);
    }
  }

  /** The slots of every replica, the requests between check and claim, and the late: all of them, and no more, settle on top. */
  lemma {:induction false} CeilingIsExact(
    c: Config, app: string, cost: nat, replicas: nat, gap: nat, lates: nat, calm: bool, bound: int)
    requires At(c.budgets, app) >= 1 && At(c.slots.ceilings, app) > 0 && cost >= 1 && replicas >= 1
    ensures ContainsGapped(c, app, cost, replicas, gap, lates, calm, bound)
       <==> At(c.budgets, app) - 1 + (replicas * Slots.SlotsPerReplica(c.slots, app) + gap + lates) * cost <= bound
  {
    var each := Slots.SlotsPerReplica(c.slots, app);
    var l := Limits(cost, replicas * each + gap, replicas, gap);
    EverywhereFits(c.slots, app, replicas);
    OccursEverywhere(replicas, each, 0);
    Times(1, replicas, each);
    var events, t, window := Spree(c, app, Everywhere(replicas, each), gap, lates, l);
    FitRunIsAll(c, Init(0), events, app, l);
    if At(c.budgets, app) - 1 + (replicas * each + gap + lates) * cost <= bound {
      forall now, events, window |
        IsRun(c, Init(now), events) && GappedRun(c, Init(now), events, app, cost, replicas, gap) && (calm ==> Calm(events))
        && LatePasses(c, Init(now), events, app, window) <= lates
        ensures Spend(Run(c, Init(now), events), app, window) <= bound
      {
        CeilingBound(c, now, events, app, cost, replicas, gap, window);
        Times(replicas * each + gap + LatePasses(c, Init(now), events, app, window), replicas * each + gap + lates, cost);
      }
    }
  }

  /**
   * The documented estimate, max_in_flight times the cost of a completion, once per replica, for an app
   * whose ceiling fits under the cap: it holds exactly when nobody stands between check and claim and nobody is late.
   */
  lemma {:induction false} EstimateHoldsIff(c: Config, app: string, cost: nat, replicas: nat, gap: nat, lates: nat, calm: bool)
    requires At(c.budgets, app) >= 1 && At(c.slots.ceilings, app) > 0 && cost >= 1 && replicas >= 1
    requires c.slots.global > 0 ==> At(c.slots.ceilings, app) <= c.slots.global
    ensures ContainsGapped(c, app, cost, replicas, gap, lates, calm,
                           At(c.budgets, app) - 1 + replicas * At(c.slots.ceilings, app) * cost)
       <==> gap == 0 && lates == 0
  {
    var slots: nat := replicas * At(c.slots.ceilings, app);
    CeilingIsExact(c, app, cost, replicas, gap, lates, calm, At(c.budgets, app) - 1 + slots * cost);
    ThreeParts(slots, gap, lates, cost);
    Times(if gap == 0 then 0 else 1, gap, cost);
    Times(if lates == 0 then 0 else 1, lates, cost);
  }

  /** Whatever the ceiling and the budget, one replica and completions of one token can spend past any bound in one window, with no store error. */
  lemma {:induction false} NoCeilingContains(c: Config, app: string, bound: nat)
    returns (events: seq<Event>, window: nat)
    requires At(c.budgets, app) >= 1
    ensures IsRun(c, Init(0), events) && Calm(events)
    ensures GappedRun(c, Init(0), events, app, 1, 1, bound + 1)
    ensures LatePasses(c, Init(0), events, app, window) == 0
    ensures Spend(Run(c, Init(0), events), app, window) > bound
  {
    var l := Limits(1, bound + 1, 1, bound + 1);
    var t;
    events, t, window := Spree(c, app, [], bound + 1, 0, l);
    FitRunIsAll(c, Init(0), events, app, l);
  }
}
