/**
 * Any number of requests on any number of replicas, interleaved at every port call:
 * one shared store, one slot limiter per replica, one record of facts.
 */
module Fleet {
  import opened Wrappers
  import opened Domain
  import opened Sums
  import opened Windows
  import QuotaStore
  import RateLimits
  import Ledger
  import Slots
  import Usage

  datatype Config = Config(rps: map<string, int>, budgets: map<string, int>, slots: Slots.Config)

  /** Where a request stands, and since when where a stamp follows; from Checked to its settlement it is in flight for the token budget. */
  datatype Phase = Arrived(since: nat) | Counted(since: nat) | Checked | Holding | Served(cost: int, at: nat) | Closing | Ended

  datatype Request = Request(app: string, replica: nat, phase: Phase)

  datatype State = State(
    meter: Ledger.Meter,
    slots: map<nat, Slots.State>,
    requests: map<nat, Request>,
    log: seq<Usage.Event>)

  /** A step at the store happens when its script runs; `clock` is the stamp its key was picked with, on the way there. */
  datatype Event =
    | Arrive(id: nat, app: string, replica: nat)
    | Count(id: nat, link: QuotaStore.Link, clock: nat)
    | Check(id: nat, link: QuotaStore.Link, clock: nat)
    | Claim(id: nat)
    | Risk(id: nat, mp: ModelProvider, estimate: int)
    | Serve(id: nat, mp: ModelProvider, usage: Domain.Usage, took: nat, failedOver: bool)
    | GiveUp(id: nat, code: ErrorCode)
    | Disconnect(id: nat, mp: ModelProvider, estimate: int)
    | Settle(id: nat, link: QuotaStore.Link, clock: nat)
    | Finish(id: nat)
    | Tick(elapsed: nat)
    | Expire(keys: set<string>)

  function Init(now: nat): State {
    State(Ledger.Start(now), map[], map[], [])
  }

  function SlotsOf(s: State, replica: nat): Slots.State {
    if replica in s.slots then s.slots[replica] else Slots.Empty()
  }

  predicate InPhase(s: State, id: nat, phase: Phase) {
    id in s.requests && s.requests[id].phase == phase
  }

  /** A script running now, stamped `clock`. */
  function Stamped(s: State, clock: nat): Moment {
    Moment(clock, s.meter.now)
  }

  /** A request's clock readings and its other steps happen in program order. */
  predicate Enabled(s: State, e: Event) {
    match e
    case Arrive(id, _, _) => id !in s.requests
    case Count(id, _, clock) =>
      id in s.requests && s.requests[id].phase.Arrived? && s.requests[id].phase.since <= clock && Timely(Requests, Stamped(s, clock))
    case Check(id, _, clock) =>
      id in s.requests && s.requests[id].phase.Counted? && s.requests[id].phase.since <= clock && Timely(Tokens, Stamped(s, clock))
    case Claim(id) => InPhase(s, id, Checked)
    case Risk(id, _, _) => InPhase(s, id, Holding)
    case Serve(id, _, _, _, _) => InPhase(s, id, Holding)
    case GiveUp(id, _) => InPhase(s, id, Holding)
    case Disconnect(id, _, _) => InPhase(s, id, Holding)
    case Settle(id, _, clock) =>
      id in s.requests && s.requests[id].phase.Served? && s.requests[id].phase.at <= clock && Timely(Tokens, Stamped(s, clock))
    case Finish(id) => InPhase(s, id, Closing)
    case Tick(_) => true
    case Expire(_) => true
  }

  function Move(s: State, id: nat, phase: Phase, facts: seq<Usage.Event>): State
    requires id in s.requests
  {
    s.(requests := s.requests[id := s.requests[id].(phase := phase)], log := s.log + facts)
  }

  /** What a rate verdict puts on record. */
  function Facts(app: string, v: RateLimits.Verdict): seq<Usage.Event> {
    match v
    case Err(_) => [Usage.FailedOpen(app)]
    case Ok(Admit) => []
    case Ok(Refuse(_, _)) => [Usage.Rejected(app, QuotaExceeded)]
  }

  predicate Passes(v: RateLimits.Verdict) {
    v.Err? || v.value.Admit?
  }

  function CountVerdict(c: Config, s: State, id: nat, link: QuotaStore.Link, clock: nat): RateLimits.Verdict
    requires id in s.requests
  {
    RateLimits.AllowVerdict(c.rps, s.meter.entries, Stamped(s, clock), s.requests[id].app, link)
  }

  function CheckVerdict(c: Config, s: State, id: nat, link: QuotaStore.Link, clock: nat): RateLimits.Verdict
    requires id in s.requests
  {
    RateLimits.CheckVerdict(c.budgets, s.meter.entries, Stamped(s, clock), s.requests[id].app, link)
  }

  /** The charge an event makes at the store, if it makes one. */
  function ChargeOf(c: Config, s: State, e: Event): Option<Ledger.Event>
    requires Enabled(s, e)
  {
    match e
    case Count(id, link, clock) =>
      if At(c.rps, s.requests[id].app) <= 0 || link.RequestLost? then None
      else Some(Ledger.Pay(Requests, s.requests[id].app, 1, clock))
    case Settle(id, link, clock) =>
      var cost := s.requests[id].phase.cost;
      if At(c.budgets, s.requests[id].app) <= 0 || cost <= 0 || link.RequestLost? then None
      else Some(Ledger.Pay(Tokens, s.requests[id].app, cost, clock))
    case Tick(elapsed) => Some(Ledger.Tick(elapsed))
    case Expire(keys) => Some(Ledger.Expiry(keys))
    case _ => None
  }

  /** Everything but the store. */
  function Progress(c: Config, s: State, e: Event): State
    requires Enabled(s, e)
  {
    match e
    case Arrive(id, app, replica) => s.(requests := s.requests[id := Request(app, replica, Arrived(s.meter.now))])
    case Count(id, link, clock) =>
      var v := CountVerdict(c, s, id, link, clock);
      Move(s, id, if Passes(v) then Counted(s.meter.now) else Ended, Facts(s.requests[id].app, v))
    case Check(id, link, clock) =>
      var v := CheckVerdict(c, s, id, link, clock);
      Move(s, id, if Passes(v) then Checked else Ended, Facts(s.requests[id].app, v))
    case Claim(id) =>
      var r := s.requests[id];
      if Slots.Decide(c.slots, SlotsOf(s, r.replica), r.app).Granted? then
        Move(s, id, Holding, []).(slots := s.slots[r.replica := Slots.Claim(SlotsOf(s, r.replica), r.app)])
      else Move(s, id, Ended, [Usage.Rejected(r.app, ConcurrencyCeiling)])
    case Risk(id, mp, estimate) => Move(s, id, Holding, [Usage.DoubleSpendRisked(s.requests[id].app, mp, estimate)])
    case Serve(id, mp, usage, took, failedOver) =>
      Move(s, id, Served(usage.prompt + usage.completion, s.meter.now), [Usage.Completed(s.requests[id].app, mp, usage, took, failedOver)])
    case GiveUp(id, code) => Move(s, id, Closing, [Usage.Rejected(s.requests[id].app, code)])
    case Disconnect(id, mp, estimate) => Move(s, id, Closing, [Usage.Disconnected(s.requests[id].app, mp, estimate)])
    case Settle(id, _, _) => Move(s, id, Closing, [])
    case Finish(id) =>
      var r := s.requests[id];
      Move(s, id, Ended, []).(slots := s.slots[r.replica := Slots.Release(SlotsOf(s, r.replica), r.app)])
    case Tick(_) => s
    case Expire(_) => s
  }

  function Step(c: Config, s: State, e: Event): State
    requires Enabled(s, e)
  {
    var t := Progress(c, s, e);
    match ChargeOf(c, s, e)
    case None => t
    case Some(charge) => t.(meter := Ledger.Step(s.meter, charge))
  }

  predicate IsRun(c: Config, s: State, events: seq<Event>)
    decreases |events|
  {
    events == [] || (Enabled(s, events[0]) && IsRun(c, Step(c, s, events[0]), events[1..]))
  }

  function Run(c: Config, s: State, events: seq<Event>): State
    requires IsRun(c, s, events)
    decreases |events|
  {
    if events == [] then s else Run(c, Step(c, s, events[0]), events[1..])
  }

  lemma {:induction false} RunConcat(c: Config, s: State, a: seq<Event>, b: seq<Event>)
    requires IsRun(c, s, a) && IsRun(c, Run(c, s, a), b)
    ensures IsRun(c, s, a + b) && Run(c, s, a + b) == Run(c, Run(c, s, a), b)
    decreases |a|
  {
    if a == [] {
      assert a + b == b;
    } else {
      assert (a + b)[1..] == a[1..] + b;
      RunConcat(c, Step(c, s, a[0]), a[1..], b);
    }
  }

  lemma {:induction false} RunCons(c: Config, s: State, e: Event, rest: seq<Event>)
    requires Enabled(s, e) && IsRun(c, Step(c, s, e), rest)
    ensures IsRun(c, s, [e] + rest) && Run(c, s, [e] + rest) == Run(c, Step(c, s, e), rest)
  {
    assert ([e] + rest)[1..] == rest;
  }

  // ---- the store side ----

  lemma {:induction false} ChargesAreAllowed(c: Config, s: State, e: Event)
    requires Enabled(s, e)
    ensures ChargeOf(c, s, e).Some? ==> Ledger.Allowed(s.meter, ChargeOf(c, s, e).value)
  {
  }

  /** The store writes of a step are the limiters' own. */
  lemma {:induction false} ChargesAreTheLimiters(c: Config, s: State, e: Event)
    requires Enabled(s, e) && (e.Count? || e.Settle?)
    ensures
      Step(c, s, e).meter.entries ==
        match e
        case Count(id, link, clock) => RateLimits.AllowEntries(c.rps, s.meter.entries, Stamped(s, clock), s.requests[id].app, link)
        case Settle(id, link, clock) =>
          RateLimits.SettleEntries(c.budgets, s.meter.entries, Stamped(s, clock), s.requests[id].app, s.requests[id].phase.cost, link)
        case _ => s.meter.entries
  {
  }

  lemma {:induction false} StepRefines(c: Config, s: State, e: Event)
    requires Ledger.Refines(s.meter) && Enabled(s, e)
    ensures Ledger.Refines(Step(c, s, e).meter)
  {
    ChargesAreAllowed(c, s, e);
    if ChargeOf(c, s, e).Some? {
      Ledger.StepRefines(s.meter, ChargeOf(c, s, e).value);
    }
  }

  /** Store errors and all, the counters never disagree with the ledger. */
  lemma {:induction false} RunRefines(c: Config, s: State, events: seq<Event>)
    requires Ledger.Refines(s.meter) && IsRun(c, s, events)
    ensures Ledger.Refines(Run(c, s, events).meter)
    decreases |events|
  {
    if events != [] {
      StepRefines(c, s, events[0]);
      RunRefines(c, Step(c, s, events[0]), events[1..]);
    }
  }
}
