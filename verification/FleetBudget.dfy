/** The soft token budget: how far spending can overshoot it. */
module FleetBudget {
  import opened Sums
  import opened Windows
  import opened Fleet
  import Ledger
  import FleetSlots

  /** Past the budget check, cost not yet settled. */
  predicate Outstanding(phase: Phase) {
    phase.Checked? || phase.Holding? || phase.Served?
  }

  function Unsettled(s: State, app: string): set<nat> {
    set id | id in s.requests && s.requests[id].app == app && Outstanding(s.requests[id].phase)
  }

  /** Whether a settlement yet to come may be stamped in `window`: it is stamped after the completion was served. */
  predicate MayStamp(s: State, phase: Phase, window: nat) {
    window >= WindowOf(Tokens, s.meter.now) || (phase.Served? && WindowOf(Tokens, phase.at) <= window)
  }

  /** The unsettled requests that may yet charge `window`. */
  function Owing(s: State, app: string, window: nat): set<nat> {
    set id | id in s.requests && s.requests[id].app == app && Outstanding(s.requests[id].phase)
      && MayStamp(s, s.requests[id].phase, window)
  }

  function Spend(s: State, app: string, window: nat): int {
    Ledger.Total(s.meter.history, Tokens, app, window)
  }

  function CurrentSpend(s: State, app: string): int {
    Spend(s, app, WindowOf(Tokens, s.meter.now))
  }

  /**
   * What is assumed of one step: the app's budget checks get through, its completions
   * cost at most `cost`, and whenever one settles at most `width` are unsettled.
   */
  predicate Tame(c: Config, s: State, e: Event, app: string, cost: nat, width: nat) {
    && (e.Check? && e.id in s.requests && s.requests[e.id].app == app ==> e.link.Up?)
    && (e.Serve? && e.id in s.requests && s.requests[e.id].app == app ==> e.usage.prompt + e.usage.completion <= cost)
    && (e.Settle? && e.id in s.requests && s.requests[e.id].app == app ==> |Unsettled(s, app)| <= width)
  }

  predicate TameRun(c: Config, s: State, events: seq<Event>, app: string, cost: nat, width: nat)
    requires IsRun(c, s, events)
    decreases |events|
  {
    events == []
    || (Tame(c, s, events[0], app, cost, width) && TameRun(c, Step(c, s, events[0]), events[1..], app, cost, width))
  }

  predicate PassesCheck(c: Config, s: State, e: Event, app: string)
    requires Enabled(s, e)
  {
    e.Check? && s.requests[e.id].app == app && Passes(CheckVerdict(c, s, e.id, e.link, e.clock))
  }

  /** The app passes a check in `window` on the strength of an earlier window's counter. */
  predicate LatePass(c: Config, s: State, e: Event, app: string, window: nat)
    requires Enabled(s, e)
  {
    PassesCheck(c, s, e, app) && WindowOf(Tokens, e.clock) < WindowOf(Tokens, s.meter.now) == window
  }

  function LatePasses(c: Config, s: State, events: seq<Event>, app: string, window: nat): nat
    requires IsRun(c, s, events)
    decreases |events|
  {
    if events == [] then 0
    else
      (if LatePass(c, s, events[0], app, window) then 1 else 0)
      + LatePasses(c, Step(c, s, events[0]), events[1..], app, window)
  }

  function Bound(budget: int, cost: nat, width: nat): int {
    budget - 1 + width * cost
  }

  predicate CostsAtMost(s: State, app: string, cost: nat) {
    forall id :: id in s.requests && s.requests[id].app == app && s.requests[id].phase.Served? ==>
      s.requests[id].phase.cost <= cost
  }

  /** Either the window is under budget, or what may yet charge it still fits under the bound. */
  predicate ContainedAt(c: Config, s: State, app: string, cost: nat, width: nat, window: nat) {
    || Spend(s, app, window) < At(c.budgets, app)
    || Spend(s, app, window) + |Owing(s, app, window)| * cost <= Bound(At(c.budgets, app), cost, width)
  }

  /** What every step keeps, whatever the window. */
  ghost predicate InOrder(s: State, app: string, cost: nat) {
    Ledger.Refines(s.meter) && CostsAtMost(s, app, cost)
  }

  // ---- arithmetic ----

  lemma {:induction false} FewerCostLess(a: set<nat>, b: set<nat>, cost: nat)
    requires a <= b
    ensures |a| <= |b| && |a| * cost <= |b| * cost
  {
    Ledger.Subset(a, b);
    Times(|a|, |b|, cost);
  }

  lemma {:induction false} Times(m: nat, n: nat, cost: nat)
    requires m <= n
    ensures m * cost <= n * cost
  {
  }

  lemma {:induction false} OneFewer(n: nat, cost: nat)
    requires n > 0
    ensures (n - 1) * cost == n * cost - cost
  {
  }

  // ---- single steps ----

  /** Only a passed check adds to what may charge a window, and never to a window gone by; a settlement takes itself away. */
  lemma {:induction false} OwingAfter(c: Config, s: State, e: Event, app: string, window: nat)
    requires Enabled(s, e)
    ensures
      var before, after := Owing(s, app, window), Owing(Step(c, s, e), app, window);
      if PassesCheck(c, s, e, app) && window >= WindowOf(Tokens, s.meter.now) then e.id !in before && after == before + {e.id}
      else if e.Settle? && s.requests[e.id].app == app then after == before - {e.id}
      else after <= before
  {
    FleetSlots.OnePhaseMoves(c, s, e);
    NowAfter(c, s, e);
    var t := Step(c, s, e);
    if e.Tick? {
      Later(s.meter.now, t.meter.now);
    } else if FleetSlots.Mover(e).Some? && !e.Arrive? {
      OwingMoved(s, t, FleetSlots.Mover(e).value, t.requests[FleetSlots.Mover(e).value].phase, app, window);
    }
  }

  lemma {:induction false} OwingMoved(s: State, t: State, id: nat, phase: Phase, app: string, window: nat)
    requires id in s.requests && t.requests == s.requests[id := s.requests[id].(phase := phase)] && t.meter.now == s.meter.now
    ensures
      Owing(t, app, window) ==
        if s.requests[id].app != app then Owing(s, app, window)
        else if Outstanding(phase) && MayStamp(s, phase, window) then Owing(s, app, window) + {id}
        else Owing(s, app, window) - {id}
  {
  }

  lemma {:induction false} Later(now: nat, then_: nat)
    requires now <= then_
    ensures WindowOf(Tokens, now) <= WindowOf(Tokens, then_)
  {
  }

  /** Who settles owes the window of its stamp. */
  lemma {:induction false} SettlerOwes(s: State, e: Event)
    requires Enabled(s, e) && e.Settle?
    ensures e.id in Owing(s, s.requests[e.id].app, WindowOf(Tokens, e.clock))
  {
    Later(s.requests[e.id].phase.at, e.clock);
  }

  lemma {:induction false} CostsStayBounded(c: Config, s: State, e: Event, app: string, cost: nat, width: nat)
    requires Enabled(s, e) && CostsAtMost(s, app, cost) && Tame(c, s, e, app, cost, width)
    ensures CostsAtMost(Step(c, s, e), app, cost)
  {
    FleetSlots.OnlyMoverMoves(c, s, e);
  }

  /** Only settling spends, and only in the window of its stamp. */
  lemma {:induction false} SpendAfter(c: Config, s: State, e: Event, app: string, window: nat)
    requires Enabled(s, e)
    ensures
      Spend(Step(c, s, e), app, window) == Spend(s, app, window)
        + if e.Settle? && s.requests[e.id].app == app && ChargeOf(c, s, e).Some? && window == WindowOf(Tokens, e.clock)
          then s.requests[e.id].phase.cost else 0
  {
    match ChargeOf(c, s, e)
    case Some(Pay(currency, payer, amount, clock)) =>
      Ledger.TotalPush(s.meter.history, Ledger.Charge(currency, payer, clock, amount), Tokens, app, window);
    case _ =>
  }

  lemma {:induction false} NowAfter(c: Config, s: State, e: Event)
    requires Enabled(s, e)
    ensures Step(c, s, e).meter.now == s.meter.now + if e.Tick? then e.elapsed else 0
  {
  }

  lemma {:induction false} SettleContained(c: Config, s: State, e: Event, app: string, cost: nat, width: nat, lates: nat, window: nat)
    requires ContainedAt(c, s, app, cost, width + lates, window) && CostsAtMost(s, app, cost) && At(c.budgets, app) >= 1
    requires Enabled(s, e) && Tame(c, s, e, app, cost, width) && e.Settle? && s.requests[e.id].app == app
    ensures ContainedAt(c, Step(c, s, e), app, cost, width + lates, window)
  {
    var owing := Owing(s, app, window);
    OwingAfter(c, s, e, app, window);
    SpendAfter(c, s, e, app, window);
    if window == WindowOf(Tokens, e.clock) {
      SettlerOwes(s, e);
      FewerCostLess(owing, Unsettled(s, app), cost);
      OneFewer(|owing|, cost);
      Times(|owing|, width + lates, cost);
    } else {
      FewerCostLess(owing - {e.id}, owing, cost);
    }
  }

  /** A check stamped in the window it runs in passes only while that window is under budget. */
  lemma {:induction false} CheckPassesUnderBudget(c: Config, s: State, e: Event)
    requires Ledger.Refines(s.meter) && Enabled(s, e) && e.Check? && e.link.Up? && At(c.budgets, s.requests[e.id].app) >= 1
    ensures Passes(CheckVerdict(c, s, e.id, e.link, e.clock))
       <==> Spend(s, s.requests[e.id].app, WindowOf(Tokens, e.clock)) < At(c.budgets, s.requests[e.id].app)
  {
    Ledger.CounterReadsLedger(s.meter, Tokens, s.requests[e.id].app, e.clock);
  }

  /** Nothing has been spent in a window that has not begun. */
  lemma {:induction false} FutureIsUnspent(m: Ledger.Meter, app: string, window: nat)
    requires Ledger.Refines(m) && window > WindowOf(Tokens, m.now)
    ensures Ledger.Total(m.history, Tokens, app, window) == 0
  {
    assert Ledger.RefinesAt(m, Tokens, app, window);
  }

  /** A passed check leaves its own window under budget, unless it came late: then it widens the window it runs in by one. */
  lemma {:induction false} PassContained(c: Config, s: State, e: Event, app: string, cost: nat, width: nat, window: nat)
    requires ContainedAt(c, s, app, cost, width, window) && Ledger.Refines(s.meter) && At(c.budgets, app) >= 1
    requires Enabled(s, e) && PassesCheck(c, s, e, app) && e.link.Up?
    ensures ContainedAt(c, Step(c, s, e), app, cost, width + if LatePass(c, s, e, app, window) then 1 else 0, window)
  {
    var now := WindowOf(Tokens, s.meter.now);
    OwingAfter(c, s, e, app, window);
    SpendAfter(c, s, e, app, window);
    Later(e.clock, s.meter.now);
    if window > now {
      FutureIsUnspent(s.meter, app, window);
    } else if window < now {
      FewerCostLess(Owing(Step(c, s, e), app, window), Owing(s, app, window), cost);
    } else if WindowOf(Tokens, e.clock) == now {
      CheckPassesUnderBudget(c, s, e);
    } else {
      OneFewer(|Owing(s, app, window)| + 1, cost);
      OneFewer(width + 1, cost);
    }
  }

  lemma {:induction false} OtherContained(c: Config, s: State, e: Event, app: string, cost: nat, width: nat, window: nat)
    requires ContainedAt(c, s, app, cost, width, window) && Enabled(s, e)
    requires !PassesCheck(c, s, e, app) && !(e.Settle? && s.requests[e.id].app == app)
    ensures ContainedAt(c, Step(c, s, e), app, cost, width, window)
  {
    OwingAfter(c, s, e, app, window);
    SpendAfter(c, s, e, app, window);
    FewerCostLess(Owing(Step(c, s, e), app, window), Owing(s, app, window), cost);
  }

  lemma {:induction false} StepContained(c: Config, s: State, e: Event, app: string, cost: nat, width: nat, lates: nat, window: nat)
    requires InOrder(s, app, cost) && ContainedAt(c, s, app, cost, width + lates, window) && At(c.budgets, app) >= 1
    requires Enabled(s, e) && Tame(c, s, e, app, cost, width)
    ensures InOrder(Step(c, s, e), app, cost)
    ensures ContainedAt(c, Step(c, s, e), app, cost, width + lates + if LatePass(c, s, e, app, window) then 1 else 0, window)
  {
    StepRefines(c, s, e);
    CostsStayBounded(c, s, e, app, cost, width);
    if PassesCheck(c, s, e, app) {
      PassContained(c, s, e, app, cost, width + lates, window);
    } else if e.Settle? && s.requests[e.id].app == app {
      SettleContained(c, s, e, app, cost, width, lates, window);
    } else {
      OtherContained(c, s, e, app, cost, width + lates, window);
    }
  }

  lemma {:induction false} RunContained(
    c: Config, s: State, events: seq<Event>, app: string, cost: nat, width: nat, lates: nat, window: nat)
    requires InOrder(s, app, cost) && ContainedAt(c, s, app, cost, width + lates, window) && At(c.budgets, app) >= 1
    requires IsRun(c, s, events) && TameRun(c, s, events, app, cost, width)
    ensures ContainedAt(c, Run(c, s, events), app, cost, width + lates + LatePasses(c, s, events, app, window), window)
    decreases |events|
  {
    if events != [] {
      var late := if LatePass(c, s, events[0], app, window) then 1 else 0;
      StepContained(c, s, events[0], app, cost, width, lates, window);
      RunContained(c, Step(c, s, events[0]), events[1..], app, cost, width, lates + late, window);
    }
  }

  /**
   * Bounded overshoot: however requests interleave, a window's spend is at most budget - 1,
   * plus the cost of `width` requests, plus that of each check that passed late in it.
   */
  lemma {:induction false} SoftBudgetBound(c: Config, now: nat, events: seq<Event>, app: string, cost: nat, width: nat, window: nat)
    requires At(c.budgets, app) >= 1
    requires IsRun(c, Init(now), events) && TameRun(c, Init(now), events, app, cost, width)
    ensures Spend(Run(c, Init(now), events), app, window)
         <= At(c.budgets, app) - 1 + (width + LatePasses(c, Init(now), events, app, window)) * cost
  {
    Ledger.StartRefines(now);
    RunContained(c, Init(now), events, app, cost, width, 0, window);
    var n := width + LatePasses(c, Init(now), events, app, window);
    assert n * cost >= 0;
    assert |Owing(Run(c, Init(now), events), app, window)| * cost >= 0;
  }
}
