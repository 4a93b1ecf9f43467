/** One call of `Chat`, seen from the fleet: a run of its steps, with the same answer's facts, store and slots. */
module ChatOnFleet {
  import opened Wrappers
  import opened Domain
  import opened Windows
  import opened Fleet
  import Chat
  import QuotaStore
  import RateLimits
  import Slots
  import Usage
  import FailoverPlan

  /** `events` lead from `s` to `t`. */
  predicate Leads(c: Config, s: State, events: seq<Event>, t: State) {
    IsRun(c, s, events) && Run(c, s, events) == t
  }

  lemma {:induction false} LeadsFirst(c: Config, s: State, e: Event, rest: seq<Event>, t: State)
    requires Enabled(s, e) && Leads(c, Step(c, s, e), rest, t)
    ensures Leads(c, s, [e] + rest, t)
  {
    RunCons(c, s, e, rest);
  }

  lemma {:induction false} LeadsThen(c: Config, s: State, a: seq<Event>, mid: State, b: seq<Event>, t: State)
    requires Leads(c, s, a, mid) && Leads(c, mid, b, t)
    ensures Leads(c, s, a + b, t)
  {
    RunConcat(c, s, a, b);
  }

  /** The store after the settlement an outcome calls for. */
  function Settled(c: Config, s: QuotaStore.Entries, app: string, settled: Option<int>, w: Chat.Weather): QuotaStore.Entries {
    match settled
    case None => s
    case Some(cost) => RateLimits.SettleEntries(c.budgets, s, w.settleAt, app, cost, w.settleLink)
  }

  /** `t` is `s` with request `id` moved to `phase`, the outcome's facts on record and its cost at the store. */
  predicate Performed(c: Config, s: State, t: State, id: nat, phase: Phase, o: Chat.Outcome, w: Chat.Weather) {
    && id in s.requests && t.requests == s.requests[id := s.requests[id].(phase := phase)]
    && t.slots == s.slots
    && t.log == s.log + o.events
    && t.meter.entries == Settled(c, s.meter.entries, s.requests[id].app, o.settled, w)
  }

  /** A request's store calls come one after another, each script in time. */
  predicate InSequence(w: Chat.Weather) {
    && Timely(Requests, w.allowAt) && Timely(Tokens, w.checkAt) && Timely(Tokens, w.settleAt)
    && w.allowAt.store <= w.checkAt.clock && w.checkAt.store <= w.settleAt.clock
  }

  predicate Ready(s: State, id: nat, app: string, w: Chat.Weather) {
    id in s.requests && s.requests[id].app == app && s.requests[id].phase == Holding
    && s.meter.now <= w.settleAt.clock && Timely(Tokens, w.settleAt)
  }

  lemma {:induction false} RejectRuns(c: Config, s: State, id: nat, app: string, code: ErrorCode, answer: Chat.Answer, w: Chat.Weather)
    returns (events: seq<Event>, t: State)
    requires Ready(s, id, app, w)
    ensures Leads(c, s, events, t) && Performed(c, s, t, id, Closing, Chat.Reject(app, code, answer), w)
  {
    events, t := [GiveUp(id, code)], Step(c, s, GiveUp(id, code));
    LeadsFirst(c, s, GiveUp(id, code), [], t);
  }

  lemma {:induction false} ServeRuns(
    c: Config, s: State, id: nat, app: string, mp: ModelProvider, usage: Domain.Usage, took: nat, failedOver: bool,
    o: Chat.Outcome, w: Chat.Weather)
    returns (events: seq<Event>, t: State)
    requires Ready(s, id, app, w)
    requires o.events == [Usage.Completed(app, mp, usage, took, failedOver)] && o.settled == Some(usage.prompt + usage.completion)
    ensures Leads(c, s, events, t) && Performed(c, s, t, id, Closing, o, w)
  {
    var serve, tick, settle := Serve(id, mp, usage, took, failedOver), Tick(w.settleAt.store - s.meter.now), Settle(id, w.settleLink, w.settleAt.clock);
    var s1 := Step(c, s, serve);
    var s2 := Step(c, s1, tick);
    t := Step(c, s2, settle);
    ChargesAreTheLimiters(c, s2, settle);
    LeadsFirst(c, s2, settle, [], t);
    LeadsFirst(c, s1, tick, [settle], t);
    LeadsFirst(c, s, serve, [tick] + [settle], t);
    events := [serve] + ([tick] + [settle]);
    assert t.log == s.log + o.events;
  }

  lemma {:induction false} FinalRuns(
    c: Config, s: State, id: nat, app: string, req: ChatRequest, mp: ModelProvider, tries: nat, a: Chat.Attempt, w: Chat.Weather)
    returns (events: seq<Event>, t: State)
    requires Ready(s, id, app, w) && Chat.OneTry(app, req, mp, tries, a).Final?
    ensures Leads(c, s, events, t) && Performed(c, s, t, id, Closing, Chat.OneTry(app, req, mp, tries, a).outcome, w)
  {
    match a.outcome
    case Ok(done) =>
      events, t := ServeRuns(c, s, id, app, mp, done.usage, a.took, tries > 0, Chat.OneTry(app, req, mp, tries, a).outcome, w);
    case Err(e) =>
      var ending := if a.callerGone then Disconnect(id, mp, Chat.UnobservedTokens(e, req)) else GiveUp(id, GatewayTimeout);
      events, t := [ending], Step(c, s, ending);
      LeadsFirst(c, s, ending, [], t);
  }

  /** The attempts of a request holding its slot, each failed one that may be billed a step of its own. */
  lemma {:induction false} AttemptsRun(
    c: Config, s: State, id: nat, app: string, req: ChatRequest, targets: FailoverPlan.Table, tries: nat,
    script: nat -> Chat.Attempt, code: ErrorCode, answer: Chat.Answer, w: Chat.Weather)
    returns (events: seq<Event>, t: State)
    requires Ready(s, id, app, w)
    ensures Leads(c, s, events, t)
    ensures Performed(c, s, t, id, Closing, Chat.Attempts(app, req, targets, tries, script, Chat.Reject(app, code, answer)), w)
    decreases |targets|
  {
    if targets == [] {
      events, t := RejectRuns(c, s, id, app, code, answer, w);
    } else {
      match Chat.OneTry(app, req, targets[0], tries, script(tries))
      case Final(o) => events, t := FinalRuns(c, s, id, app, req, targets[0], tries, script(tries), w);
      case Next(facts) =>
        var mid := s;
        var first: seq<Event> := [];
        if facts != [] {
          var risk := Risk(id, facts[0].mp, facts[0].estimate);
          first, mid := [risk], Step(c, s, risk);
          LeadsFirst(c, s, risk, [], mid);
        }
        assert mid == s.(log := s.log + facts, requests := mid.requests) && mid.requests == s.requests;
        var rest;
        rest, t := AttemptsRun(c, mid, id, app, req, targets[1..], tries + 1, script, code, answer, w);
        LeadsThen(c, s, first, mid, rest, t);
        events := first + rest;
        var more := Chat.Attempts(app, req, targets[1..], tries + 1, script, Chat.Reject(app, code, answer));
        assert s.log + facts + more.events == s.log + (facts + more.events);
    }
  }

  lemma {:induction false} AdmittedRuns(
    c: Config, s: State, id: nat, app: App, req: ChatRequest, table: FailoverPlan.Table, order: seq<string>,
    script: nat -> Chat.Attempt, w: Chat.Weather)
    returns (events: seq<Event>, t: State)
    requires Ready(s, id, app.name, w)
    ensures Leads(c, s, events, t)
    ensures Performed(c, s, t, id, Closing, Chat.Admitted(app, req, table, order, script), w)
  {
    var plan := FailoverPlan.Plan(req.model, app.policy, table, order);
    if plan == [] {
      events, t := RejectRuns(c, s, id, app.name, ModelUnavailable, Chat.Unserved(req.model), w);
    } else if |Chat.Targets(plan)| < Chat.MAX_ATTEMPTS && multiset(plan) != multiset(table) {
      events, t := AttemptsRun(c, s, id, app.name, req, Chat.Targets(plan), 0, script, ModelUnavailable, Chat.Unserved(req.model), w);
    } else {
      events, t := AttemptsRun(c, s, id, app.name, req, Chat.Targets(plan), 0, script, UpstreamFailed, Chat.Plain(UpstreamFailed), w);
    }
  }

  /** From the slot claim to the released slot. */
  lemma {:induction false} ClaimingRuns(
    c: Config, s: State, id: nat, app: App, req: ChatRequest, table: FailoverPlan.Table, order: seq<string>,
    script: nat -> Chat.Attempt, w: Chat.Weather)
    returns (events: seq<Event>, t: State)
    requires id in s.requests && s.requests[id].app == app.name && s.requests[id].phase == Checked
    requires s.meter.now <= w.settleAt.clock && Timely(Tokens, w.settleAt) && Slots.Clean(SlotsOf(s, s.requests[id].replica))
    ensures Leads(c, s, events, t)
    ensures
      var slot := Slots.Decide(c.slots, SlotsOf(s, s.requests[id].replica), app.name);
      Returned(c, s, t, id, Chat.Claiming(app, req, slot, table, order, script), w)
  {
    var replica := s.requests[id].replica;
    var s1 := Step(c, s, Claim(id));
    if Slots.Decide(c.slots, SlotsOf(s, replica), app.name).Refused? {
      events, t := [Claim(id)], s1;
      LeadsFirst(c, s, Claim(id), [], t);
    } else {
      var middle, s2 := AdmittedRuns(c, s1, id, app, req, table, order, script, w);
      t := Step(c, s2, Finish(id));
      Slots.ReleaseUndoesClaim(SlotsOf(s, replica), app.name);
      LeadsFirst(c, s2, Finish(id), [], t);
      LeadsThen(c, s1, middle, s2, [Finish(id)], t);
      LeadsFirst(c, s, Claim(id), middle + [Finish(id)], t);
      events := [Claim(id)] + (middle + [Finish(id)]);
      assert s1.log == s.log && t.log == s2.log;
      assert forall r :: SlotsOf(t, r) == SlotsOf(s, r);
    }
  }

  /** The request has ended, every slot is where it was, and the outcome's facts and cost are on the books. */
  ghost predicate Returned(c: Config, s: State, t: State, id: nat, o: Chat.Outcome, w: Chat.Weather) {
    && id in s.requests && t.requests == s.requests[id := s.requests[id].(phase := Ended)]
    && (forall replica :: SlotsOf(t, replica) == SlotsOf(s, replica))
    && t.log == s.log + o.events
    && t.meter.entries == Settled(c, s.meter.entries, s.requests[id].app, o.settled, w)
  }

  /** `t` is `s` after a rate verdict on request `id`: on to `passed`, or ended; the store is untouched. */
  predicate Judged(s: State, t: State, id: nat, v: RateLimits.Verdict, passed: Phase) {
    && id in s.requests
    && t.requests == s.requests[id := s.requests[id].(phase := if Passes(v) then passed else Ended)]
    && t.slots == s.slots && t.meter.entries == s.meter.entries
    && t.log == s.log + Facts(s.requests[id].app, v)
  }

  /** A refusal ends the request. */
  lemma {:induction false} GateCloses(c: Config, s: State, t: State, id: nat, v: RateLimits.Verdict, passed: Phase, o: Chat.Outcome, w: Chat.Weather)
    requires Judged(s, t, id, v, passed) && !Passes(v)
    ensures Returned(c, s, t, id, Chat.Gate(s.requests[id].app, v, o), w)
  {
  }

  /** Passing a gate puts its facts in front of what follows. */
  lemma {:induction false} GateOpens(
    c: Config, s: State, mid: State, t: State, id: nat, v: RateLimits.Verdict, passed: Phase, o: Chat.Outcome, w: Chat.Weather)
    requires Judged(s, mid, id, v, passed) && Passes(v) && Returned(c, mid, t, id, o, w)
    ensures Returned(c, s, t, id, Chat.Gate(s.requests[id].app, v, o), w)
  {
    assert mid.log + o.events == s.log + (Facts(s.requests[id].app, v) + o.events);
    assert forall replica :: SlotsOf(mid, replica) == SlotsOf(s, replica);
  }

  /** Request `id` has been counted, not after `clock`. */
  predicate CountedBy(s: State, id: nat, clock: nat) {
    id in s.requests && s.requests[id].phase.Counted? && s.requests[id].phase.since <= clock
  }

  /** Time passes, then the token check answers. */
  lemma {:induction false} CheckRuns(c: Config, s: State, id: nat, w: Chat.Weather)
    returns (events: seq<Event>, t: State)
    requires CountedBy(s, id, w.checkAt.clock) && s.meter.now <= w.checkAt.clock && Timely(Tokens, w.checkAt)
    ensures Leads(c, s, events, t) && t.meter.now == w.checkAt.store
    ensures Judged(s, t, id, RateLimits.CheckVerdict(c.budgets, s.meter.entries, w.checkAt, s.requests[id].app, w.checkLink), Checked)
  {
    var tick, check := Tick(w.checkAt.store - s.meter.now), Check(id, w.checkLink, w.checkAt.clock);
    var s1 := Step(c, s, tick);
    t := Step(c, s1, check);
    LeadsFirst(c, s1, check, [], t);
    LeadsFirst(c, s, tick, [check], t);
    events := [tick] + [check];
  }

  lemma {:induction false} CheckingRuns(
    c: Config, s: State, id: nat, app: App, req: ChatRequest, table: FailoverPlan.Table, order: seq<string>,
    script: nat -> Chat.Attempt, w: Chat.Weather)
    returns (events: seq<Event>, t: State)
    requires CountedBy(s, id, w.checkAt.clock) && s.requests[id].app == app.name
    requires s.meter.now <= w.checkAt.clock && InSequence(w) && Slots.Clean(SlotsOf(s, s.requests[id].replica))
    ensures Leads(c, s, events, t)
    ensures
      var slot := Slots.Decide(c.slots, SlotsOf(s, s.requests[id].replica), app.name);
      var verdict := RateLimits.CheckVerdict(c.budgets, s.meter.entries, w.checkAt, app.name, w.checkLink);
      Returned(c, s, t, id, Chat.Gate(app.name, verdict, Chat.Claiming(app, req, slot, table, order, script)), w)
  {
    var slot := Slots.Decide(c.slots, SlotsOf(s, s.requests[id].replica), app.name);
    var verdict := RateLimits.CheckVerdict(c.budgets, s.meter.entries, w.checkAt, app.name, w.checkLink);
    var after := Chat.Claiming(app, req, slot, table, order, script);
    var mid;
    events, mid := CheckRuns(c, s, id, w);
    if Passes(verdict) {
      var rest;
      rest, t := ClaimingRuns(c, mid, id, app, req, table, order, script, w);
      LeadsThen(c, s, events, mid, rest, t);
      events := events + rest;
      GateOpens(c, s, mid, t, id, verdict, Checked, after, w);
    } else {
      t := mid;
      GateCloses(c, s, t, id, verdict, Checked, after, w);
    }
  }

  /** The request arrives and, in its time, is counted; `start` is the fleet with the arrival and the count, nothing judged yet. */
  lemma {:induction false} CountRuns(c: Config, s: State, id: nat, replica: nat, app: string, w: Chat.Weather)
    returns (events: seq<Event>, start: State, t: State)
    requires id !in s.requests && s.meter.now <= w.allowAt.clock && Timely(Requests, w.allowAt)
    ensures Leads(c, s, events, t) && t.meter.now == w.allowAt.store
    ensures start.requests == s.requests[id := Request(app, replica, Arrived(s.meter.now))] && start.slots == s.slots && start.log == s.log
    ensures start.meter.entries == RateLimits.AllowEntries(c.rps, s.meter.entries, w.allowAt, app, w.allowLink)
    ensures Judged(start, t, id, RateLimits.AllowVerdict(c.rps, s.meter.entries, w.allowAt, app, w.allowLink), Counted(w.allowAt.store))
  {
    var arrive, tick, count := Arrive(id, app, replica), Tick(w.allowAt.store - s.meter.now), Count(id, w.allowLink, w.allowAt.clock);
    var s1 := Step(c, s, arrive);
    var s2 := Step(c, s1, tick);
    t := Step(c, s2, count);
    start := s1.(meter := t.meter);
    ChargesAreTheLimiters(c, s2, count);
    LeadsFirst(c, s2, count, [], t);
    LeadsFirst(c, s1, tick, [count], t);
    LeadsFirst(c, s, arrive, [tick] + [count], t);
    events := [arrive] + ([tick] + [count]);
  }

  /** What follows the request quota's verdict. */
  lemma {:induction false} JudgedRuns(
    c: Config, start: State, mid: State, id: nat, verdict: RateLimits.Verdict, app: App, req: ChatRequest,
    table: FailoverPlan.Table, order: seq<string>, script: nat -> Chat.Attempt, w: Chat.Weather)
    returns (events: seq<Event>, t: State)
    requires Judged(start, mid, id, verdict, Counted(w.allowAt.store)) && start.requests[id].app == app.name
    requires mid.meter.now <= w.checkAt.clock && InSequence(w) && Slots.Clean(SlotsOf(start, start.requests[id].replica))
    ensures Leads(c, mid, events, t)
    ensures
      var check := RateLimits.CheckVerdict(c.budgets, start.meter.entries, w.checkAt, app.name, w.checkLink);
      var slot := Slots.Decide(c.slots, SlotsOf(start, start.requests[id].replica), app.name);
      var after := Chat.Gate(app.name, check, Chat.Claiming(app, req, slot, table, order, script));
      Returned(c, start, t, id, Chat.Gate(app.name, verdict, after), w)
  {
    var check := RateLimits.CheckVerdict(c.budgets, start.meter.entries, w.checkAt, app.name, w.checkLink);
    var slot := Slots.Decide(c.slots, SlotsOf(start, start.requests[id].replica), app.name);
    var after := Chat.Gate(app.name, check, Chat.Claiming(app, req, slot, table, order, script));
    if Passes(verdict) {
      assert SlotsOf(mid, start.requests[id].replica) == SlotsOf(start, start.requests[id].replica);
      events, t := CheckingRuns(c, mid, id, app, req, table, order, script, w);
      GateOpens(c, start, mid, t, id, verdict, Counted(w.allowAt.store), after, w);
    } else {
      events, t := [], mid;
      GateCloses(c, start, t, id, verdict, Counted(w.allowAt.store), after, w);
    }
  }

  /** The whole request, from the fleet `s` before it arrived: facts, store, slots, and the request at its end. */
  ghost predicate RanFrom(
    c: Config, s: State, t: State, id: nat, replica: nat, app: string, counted: QuotaStore.Entries, o: Chat.Outcome, w: Chat.Weather)
  {
    && t.log == s.log + o.events
    && t.meter.entries == Settled(c, counted, app, o.settled, w)
    && (forall r :: SlotsOf(t, r) == SlotsOf(s, r))
    && t.requests == s.requests[id := Request(app, replica, Ended)]
  }

  lemma {:induction false} RanFromArrival(
    c: Config, s: State, start: State, t: State, id: nat, replica: nat, app: string, o: Chat.Outcome, w: Chat.Weather)
    requires start.requests == s.requests[id := Request(app, replica, Arrived(s.meter.now))] && start.slots == s.slots && start.log == s.log
    requires Returned(c, start, t, id, o, w)
    ensures RanFrom(c, s, t, id, replica, app, start.meter.entries, o, w)
  {
    assert forall r :: SlotsOf(start, r) == SlotsOf(s, r);
  }

  /**
   * For every valid request there is a run of the fleet's steps that records the facts,
   * writes the store and returns the slots exactly as `Chat` does.
   */
  lemma {:induction false} ChatIsAFleetRun(
    c: Config, s: State, id: nat, replica: nat, app: App, req: ChatRequest, table: FailoverPlan.Table, order: seq<string>,
    script: nat -> Chat.Attempt, w: Chat.Weather)
    returns (events: seq<Event>, t: State)
    requires id !in s.requests && Chat.ValidRequest(req) && Slots.Clean(SlotsOf(s, replica))
    requires s.meter.now <= w.allowAt.clock && InSequence(w)
    ensures Leads(c, s, events, t)
    ensures
      var counted := RateLimits.AllowEntries(c.rps, s.meter.entries, w.allowAt, app.name, w.allowLink);
      var o := Chat.Respond(Some(app), req,
                 RateLimits.AllowVerdict(c.rps, s.meter.entries, w.allowAt, app.name, w.allowLink),
                 RateLimits.CheckVerdict(c.budgets, counted, w.checkAt, app.name, w.checkLink),
                 Slots.Decide(c.slots, SlotsOf(s, replica), app.name), table, order, script);
      RanFrom(c, s, t, id, replica, app.name, counted, o, w)
  {
    var start, mid, rest;
    var verdict := RateLimits.AllowVerdict(c.rps, s.meter.entries, w.allowAt, app.name, w.allowLink);
    events, start, mid := CountRuns(c, s, id, replica, app.name, w);
    assert SlotsOf(start, replica) == SlotsOf(s, replica);
    rest, t := JudgedRuns(c, start, mid, id, verdict, app, req, table, order, script, w);
    LeadsThen(c, s, events, mid, rest, t);
    events := events + rest;
    var check := RateLimits.CheckVerdict(c.budgets, start.meter.entries, w.checkAt, app.name, w.checkLink);
    var slot := Slots.Decide(c.slots, SlotsOf(s, replica), app.name);
    RanFromArrival(c, s, start, t, id, replica, app.name,
                   Chat.Respond(Some(app), req, verdict, check, slot, table, order, script), w);
  }
}
