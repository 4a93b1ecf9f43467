/** The books of the fleet: one terminal fact per request, and tokens recorded against tokens debited. */
module FleetAccounts {
  import opened Wrappers
  import opened Sums
  import opened Windows
  import opened Fleet
  import Ledger
  import Usage
  import FleetSlots

  // ---- one terminal fact per request ----

  function TerminalFacts(log: seq<Usage.Event>, app: string): nat {
    if log == [] then 0
    else
      var last := log[|log| - 1];
      TerminalFacts(log[..|log| - 1], app) + if last.app == app && Usage.Terminal(last) then 1 else 0
  }

  predicate Concluded(phase: Phase) {
    phase.Served? || phase.Closing? || phase.Ended?
  }

  /** The app's requests whose fate is decided. */
  function ConcludedOf(s: State, app: string): set<nat> {
    set id | id in s.requests && s.requests[id].app == app && Concluded(s.requests[id].phase)
  }

  lemma {:induction false} TerminalFactsPush(log: seq<Usage.Event>, e: Usage.Event, app: string)
    ensures TerminalFacts(log + [e], app) == TerminalFacts(log, app) + if e.app == app && Usage.Terminal(e) then 1 else 0
    ensures log + [] == log
  {
    assert (log + [e])[..|log|] == log;
  }

  /** A step decides its own request's fate or nobody's. */
  predicate Concludes(c: Config, s: State, e: Event)
    requires Enabled(s, e)
  {
    match e
    case Count(id, link, clock) => !Passes(CountVerdict(c, s, id, link, clock))
    case Check(id, link, clock) => !Passes(CheckVerdict(c, s, id, link, clock))
    case Claim(_) => !FleetSlots.Takes(c, s, e)
    case Serve(_, _, _, _, _) => true
    case GiveUp(_, _) => true
    case Disconnect(_, _, _) => true
    case _ => false
  }

  lemma {:induction false} ConcludedMoved(s: State, t: State, id: nat, phase: Phase, app: string)
    requires id in s.requests && t.requests == s.requests[id := s.requests[id].(phase := phase)]
    ensures
      ConcludedOf(t, app) ==
        if s.requests[id].app != app then ConcludedOf(s, app)
        else if Concluded(phase) then ConcludedOf(s, app) + {id}
        else ConcludedOf(s, app) - {id}
  {
  }

  lemma {:induction false} ConcludedAfter(c: Config, s: State, e: Event, app: string)
    requires Enabled(s, e)
    ensures
      if Concludes(c, s, e) && s.requests[FleetSlots.Mover(e).value].app == app
      then FleetSlots.Mover(e).value !in ConcludedOf(s, app)
        && ConcludedOf(Step(c, s, e), app) == ConcludedOf(s, app) + {FleetSlots.Mover(e).value}
      else ConcludedOf(Step(c, s, e), app) == ConcludedOf(s, app)
  {
    FleetSlots.OnePhaseMoves(c, s, e);
    var t := Step(c, s, e);
    if FleetSlots.Mover(e).Some? && !e.Arrive? {
      var id := FleetSlots.Mover(e).value;
      ConcludedMoved(s, t, id, t.requests[id].phase, app);
      assert Concluded(t.requests[id].phase) <==> Concludes(c, s, e) || Concluded(s.requests[id].phase);
    }
  }

  /** The fact a step records, if any. */
  function FactOf(c: Config, s: State, e: Event): Option<Usage.Event>
    requires Enabled(s, e)
  {
    var t := Step(c, s, e);
    if |t.log| > |s.log| then Some(t.log[|s.log|]) else None
  }

  lemma {:induction false} OneFactAtMost(c: Config, s: State, e: Event)
    requires Enabled(s, e)
    ensures
      match FactOf(c, s, e)
      case None => Step(c, s, e).log == s.log && !Concludes(c, s, e)
      case Some(fact) =>
        && Step(c, s, e).log == s.log + [fact]
        && FleetSlots.Mover(e).Some? && FleetSlots.Mover(e).value in s.requests
        && fact.app == s.requests[FleetSlots.Mover(e).value].app
        && (Usage.Terminal(fact) <==> Concludes(c, s, e))
  {
  }

  lemma {:induction false} StepKeepsTerminals(c: Config, s: State, e: Event, app: string)
    requires Enabled(s, e) && TerminalFacts(s.log, app) == |ConcludedOf(s, app)|
    ensures TerminalFacts(Step(c, s, e).log, app) == |ConcludedOf(Step(c, s, e), app)|
  {
    ConcludedAfter(c, s, e, app);
    OneFactAtMost(c, s, e);
    if FactOf(c, s, e).Some? {
      TerminalFactsPush(s.log, FactOf(c, s, e).value, app);
    }
  }

  /** In every interleaving, completions, rejections and disconnects together are exactly the requests concluded. */
  lemma {:induction false} OneTerminalFactEach(c: Config, s: State, events: seq<Event>, app: string)
    requires IsRun(c, s, events) && TerminalFacts(s.log, app) == |ConcludedOf(s, app)|
    ensures TerminalFacts(Run(c, s, events).log, app) == |ConcludedOf(Run(c, s, events), app)|
    decreases |events|
  {
    if events != [] {
      StepKeepsTerminals(c, s, events[0], app);
      OneTerminalFactEach(c, Step(c, s, events[0]), events[1..], app);
    }
  }

  // ---- ... each to its own request ----

  /** What the steps of request `id` put on record, in their order. */
  function FactsBy(c: Config, s: State, events: seq<Event>, id: nat): seq<Usage.Event>
    requires IsRun(c, s, events)
    decreases |events|
  {
    if events == [] then []
    else
      var fact := FactOf(c, s, events[0]);
      (if FleetSlots.Mover(events[0]) == Some(id) && fact.Some? then [fact.value] else [])
      + FactsBy(c, Step(c, s, events[0]), events[1..], id)
  }

  function TerminalsIn(facts: seq<Usage.Event>): nat {
    if facts == [] then 0 else (if Usage.Terminal(facts[0]) then 1 else 0) + TerminalsIn(facts[1..])
  }

  function Fate(s: State, id: nat): nat {
    if id in s.requests && Concluded(s.requests[id].phase) then 1 else 0
  }

  /** A step concludes its own request, which was not concluded, or nobody. */
  lemma {:induction false} FateAfter(c: Config, s: State, e: Event, id: nat)
    requires Enabled(s, e)
    ensures Fate(Step(c, s, e), id) == Fate(s, id) + if FleetSlots.Mover(e) == Some(id) && Concludes(c, s, e) then 1 else 0
  {
    FleetSlots.OnePhaseMoves(c, s, e);
  }

  lemma {:induction false} TerminalsCons(facts: seq<Usage.Event>, more: seq<Usage.Event>)
    requires |facts| <= 1
    ensures TerminalsIn(facts + more) == TerminalsIn(facts) + TerminalsIn(more)
  {
    if facts == [] {
      assert facts + more == more;
    } else {
      assert (facts + more)[1..] == more && facts[1..] == [];
    }
  }

  /**
   * In every interleaving a request's own steps put exactly one terminal fact on record once it is
   * concluded, none before, and every fact of theirs is about its app.
   */
  lemma {:induction false} OneTerminalFactPerRequest(c: Config, s: State, events: seq<Event>, id: nat)
    requires IsRun(c, s, events)
    ensures TerminalsIn(FactsBy(c, s, events, id)) == Fate(Run(c, s, events), id) - Fate(s, id)
    ensures forall k :: 0 <= k < |FactsBy(c, s, events, id)| ==>
              id in Run(c, s, events).requests && FactsBy(c, s, events, id)[k].app == Run(c, s, events).requests[id].app
    decreases |events|
  {
    if events != [] {
      var e := events[0];
      var t, fact := Step(c, s, e), FactOf(c, s, e);
      var own := if FleetSlots.Mover(e) == Some(id) && fact.Some? then [fact.value] else [];
      OneFactAtMost(c, s, e);
      FateAfter(c, s, e, id);
      OneTerminalFactPerRequest(c, t, events[1..], id);
      TerminalsCons(own, FactsBy(c, t, events[1..], id));
      if own != [] {
        FleetSlots.OnlyMoverMoves(c, s, e);
        AppsStay(c, t, events[1..], id);
      }
    }
  }

  lemma {:induction false} AppsStay(c: Config, s: State, events: seq<Event>, id: nat)
    requires IsRun(c, s, events) && id in s.requests
    ensures id in Run(c, s, events).requests && Run(c, s, events).requests[id].app == s.requests[id].app
    decreases |events|
  {
    if events != [] {
      FleetSlots.OnlyMoverMoves(c, s, events[0]);
      AppsStay(c, Step(c, s, events[0]), events[1..], id);
    }
  }

  // ---- tokens recorded and tokens debited ----

  /** Everything ever debited from an app's token budget. */
  function Debits(history: seq<Ledger.Charge>, app: string): int {
    if history == [] then 0
    else
      var last := history[|history| - 1];
      Debits(history[..|history| - 1], app) + if last.currency == Tokens && last.app == app then last.amount else 0
  }

  function Recorded(log: seq<Usage.Event>, app: string): int {
    Usage.Tally(log, Usage.PromptTokens, app) + Usage.Tally(log, Usage.CompletionTokens, app)
  }

  function Owed(r: Request, app: string): int {
    if r.app == app && r.phase.Served? then r.phase.cost else 0
  }

  function OwedById(requests: map<nat, Request>, app: string): map<nat, int> {
    map id | id in requests :: Owed(requests[id], app)
  }

  /** The cost of requests recorded and not yet settled. */
  ghost function Pending(s: State, app: string): int {
    Sum(OwedById(s.requests, app))
  }

  lemma {:induction false} PendingUpdate(requests: map<nat, Request>, id: nat, r: Request, app: string)
    ensures Sum(OwedById(requests[id := r], app))
         == Sum(OwedById(requests, app)) + Owed(r, app) - if id in requests then Owed(requests[id], app) else 0
  {
    var owed := OwedById(requests, app);
    SumUpdate(owed, id, Owed(r, app));
    assert OwedById(requests[id := r], app) == owed[id := Owed(r, app)];
  }

  /** No completion costs less than nothing, and no settlement is lost on the way to the store. */
  predicate Honest(s: State, e: Event, app: string) {
    && (e.Serve? && e.id in s.requests && s.requests[e.id].app == app ==> e.usage.prompt + e.usage.completion >= 0)
    && (e.Settle? && e.id in s.requests && s.requests[e.id].app == app ==> !e.link.RequestLost?)
  }

  predicate HonestRun(c: Config, s: State, events: seq<Event>, app: string)
    requires IsRun(c, s, events)
    decreases |events|
  {
    events == [] || (Honest(s, events[0], app) && HonestRun(c, Step(c, s, events[0]), events[1..], app))
  }

  ghost predicate Balanced(s: State, app: string) {
    && Recorded(s.log, app) == Debits(s.meter.history, app) + Pending(s, app)
    && forall id :: id in s.requests ==> Owed(s.requests[id], app) >= 0
  }

  lemma {:induction false} RecordedPush(log: seq<Usage.Event>, e: Usage.Event, app: string)
    ensures Recorded(log + [e], app) == Recorded(log, app)
      + if e.Completed? && e.app == app then e.usage.prompt + e.usage.completion else 0
  {
    assert (log + [e])[..|log|] == log;
  }

  lemma {:induction false} DebitsAfter(c: Config, s: State, e: Event, app: string)
    requires Enabled(s, e) && At(c.budgets, app) > 0 && Honest(s, e, app)
    requires e.Settle? && s.requests[e.id].app == app ==> s.requests[e.id].phase.cost >= 0
    ensures Debits(Step(c, s, e).meter.history, app) == Debits(s.meter.history, app)
      + if e.Settle? && s.requests[e.id].app == app then s.requests[e.id].phase.cost else 0
  {
    match ChargeOf(c, s, e)
    case Some(Pay(currency, payer, amount, clock)) =>
      var charge := Ledger.Charge(currency, payer, clock, amount);
      assert (s.meter.history + [charge])[..|s.meter.history|] == s.meter.history;
    case _ =>
  }

  lemma {:induction false} RecordedAfter(c: Config, s: State, e: Event, app: string)
    requires Enabled(s, e)
    ensures Recorded(Step(c, s, e).log, app) == Recorded(s.log, app)
      + if e.Serve? && s.requests[e.id].app == app then e.usage.prompt + e.usage.completion else 0
  {
    OneFactAtMost(c, s, e);
    if FactOf(c, s, e).Some? {
      RecordedPush(s.log, FactOf(c, s, e).value, app);
    }
  }

  lemma {:induction false} PendingAfter(c: Config, s: State, e: Event, app: string)
    requires Enabled(s, e)
    ensures Pending(Step(c, s, e), app) == Pending(s, app)
      + (if e.Serve? && s.requests[e.id].app == app then e.usage.prompt + e.usage.completion else 0)
      - (if e.Settle? && s.requests[e.id].app == app then s.requests[e.id].phase.cost else 0)
  {
    var t := Step(c, s, e);
    match FleetSlots.Mover(e)
    case None => assert t.requests == s.requests;
    case Some(id) =>
      assert id in t.requests && t.requests == s.requests[id := t.requests[id]];
      PendingUpdate(s.requests, id, t.requests[id], app);
  }

  lemma {:induction false} StepBalances(c: Config, s: State, e: Event, app: string)
    requires Balanced(s, app) && Enabled(s, e) && At(c.budgets, app) > 0 && Honest(s, e, app)
    ensures Balanced(Step(c, s, e), app)
  {
    if e.Settle? && s.requests[e.id].app == app {
      assert Owed(s.requests[e.id], app) >= 0;
    }
    DebitsAfter(c, s, e, app);
    RecordedAfter(c, s, e, app);
    PendingAfter(c, s, e, app);
    FleetSlots.OnlyMoverMoves(c, s, e);
    var t := Step(c, s, e);
    forall id | id in t.requests ensures Owed(t.requests[id], app) >= 0 {
      if FleetSlots.Mover(e) != Some(id) {
        assert Owed(s.requests[id], app) >= 0;
      }
    }
  }

  lemma {:induction false} RunBalances(c: Config, s: State, events: seq<Event>, app: string)
    requires Balanced(s, app) && IsRun(c, s, events) && At(c.budgets, app) > 0 && HonestRun(c, s, events, app)
    ensures Balanced(Run(c, s, events), app)
    decreases |events|
  {
    if events != [] {
      StepBalances(c, s, events[0], app);
      RunBalances(c, Step(c, s, events[0]), events[1..], app);
    }
  }

  /** For a metered app, tokens recorded are tokens debited plus what is recorded and still to be settled. */
  lemma {:induction false} RecordedIsDebitedPlusPending(c: Config, now: nat, events: seq<Event>, app: string)
    requires IsRun(c, Init(now), events) && At(c.budgets, app) > 0 && HonestRun(c, Init(now), events, app)
    ensures
      var s := Run(c, Init(now), events);
      Recorded(s.log, app) == Debits(s.meter.history, app) + Pending(s, app)
  {
    assert OwedById(map[], app) == map[];
    RunBalances(c, Init(now), events, app);
  }
}
