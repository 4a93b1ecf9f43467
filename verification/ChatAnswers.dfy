/** What every answer says, told by what happened: the checks that refused, or the attempts that were made. */
module ChatAnswers {
  import opened Wrappers
  import opened Domain
  import opened Chat
  import opened ChatProperties
  import RateLimits
  import Slots
  import Usage
  import FailoverPlan
  import PlanOrder

  // ---- refused before any attempt ----

  function Told(code: ErrorCode): Error {
    Error(code, 0, None, 0, "")
  }

  /** Why a request never reached a provider, and what the caller is told. */
  ghost predicate RefusedWith(
    e: Error, app: App, req: ChatRequest, allow: RateLimits.Verdict, check: RateLimits.Verdict, slot: Slots.Answer,
    table: FailoverPlan.Table)
  {
    if req.model == "" || req.messages == [] || req.maxTokens < 1 || |req.stop| > 4 then e == Told(InvalidRequest)
    else if allow.Ok? && allow.value.Refuse? then
      e == Told(QuotaExceeded).(retryAfter := allow.value.retryAfter, quota := Some(allow.value.quota))
    else if check.Ok? && check.value.Refuse? then
      e == Told(QuotaExceeded).(retryAfter := check.value.retryAfter, quota := Some(check.value.quota))
    else if slot.Refused? then
      e == Told(ConcurrencyCeiling).(retryAfter := 1_000_000_000, maxInFlight := slot.ceiling)
    else
      && e == Told(ModelUnavailable).(requestedModel := req.model)
      && forall r :: r in table ==> r.model != req.model
  }

  lemma {:induction false} NobodyServes(table: FailoverPlan.Table, model: string)
    ensures FailoverPlan.RowsOf(table, model) == [] <==> forall r :: r in table ==> r.model != model
  {
    if table != [] {
      var front, last := table[..|table| - 1], table[|table| - 1];
      NobodyServes(front, model);
      assert table == front + [last];
      assert last in table;
    }
  }

  /** The answer, the record and the cost of a refusal for its cause. */
  ghost predicate RefusedForCause(
    o: Outcome, app: App, req: ChatRequest, allow: RateLimits.Verdict, check: RateLimits.Verdict, slot: Slots.Answer,
    table: FailoverPlan.Table)
  {
    && o.answer.Err? && o.answer.error.Refused? && o.settled == None
    && RefusedWith(o.answer.error.error, app, req, allow, check, slot, table)
    && o.events != [] && o.events[|o.events| - 1] == Usage.Rejected(app.name, o.answer.error.error.code)
  }

  lemma {:induction false} GateRefusals(
    app: App, req: ChatRequest, allow: RateLimits.Verdict, check: RateLimits.Verdict, slot: Slots.Answer,
    table: FailoverPlan.Table, next: Outcome)
    requires ValidRequest(req) && !Admits(req, allow, check, slot)
    requires slot.Refused? ==> next == Reject(app.name, ConcurrencyCeiling, AtCeiling(slot.ceiling))
    ensures RefusedForCause(Gate(app.name, allow, Gate(app.name, check, next)), app, req, allow, check, slot, table)
  {
  }

  /** A request no provider heard of is refused for the first of five reasons that applies, and told the reason's own details. */
  lemma {:induction false} RefusalNamesItsCause(
    app: App, req: ChatRequest, allow: RateLimits.Verdict, check: RateLimits.Verdict, slot: Slots.Answer,
    table: FailoverPlan.Table, order: seq<string>, script: nat -> Attempt)
    requires Respond(Some(app), req, allow, check, slot, table, order, script).contacted == []
    ensures RefusedForCause(Respond(Some(app), req, allow, check, slot, table, order, script), app, req, allow, check, slot, table)
  {
    if !ValidRequest(req) {
    } else if Admits(req, allow, check, slot) {
      OnlyAdmittedReachProviders(app, req, allow, check, slot, table, order, script);
      NobodyServes(table, req.model);
      PassesGates(app.name, allow, check, Reject(app.name, ModelUnavailable, Unserved(req.model)));
    } else {
      GateRefusals(app, req, allow, check, slot, table, Claiming(app, req, slot, table, order, script));
    }
  }

  /** A caller nobody knows is turned away with nothing counted, recorded or contacted. */
  lemma {:induction false} UnknownCallerLeavesNoTrace(
    req: ChatRequest, allow: RateLimits.Verdict, check: RateLimits.Verdict, slot: Slots.Answer,
    table: FailoverPlan.Table, order: seq<string>, script: nat -> Attempt)
    ensures Respond(None, req, allow, check, slot, table, order, script)
         == Outcome(Err(Refused(Told(Unauthorized))), [], [], None)
  {
  }

  // ---- attempted ----

  /** The most a lost attempt can have cost: what was observed of it, else the request's own cap. */
  predicate Estimated(estimate: int, a: Attempt, req: ChatRequest) {
    match a.outcome
    case Err(Fault(_, Some(observed))) => estimate == observed.total
    case _ => estimate == req.maxTokens
  }

  /** What a failed attempt leaves on record when the request goes on. */
  predicate Leaves(facts: seq<Usage.Event>, app: string, mp: ModelProvider, a: Attempt, req: ChatRequest) {
    match a.outcome
    case Ok(_) => facts == []
    case Err(Fault(kind, _)) =>
      if kind in {Timeout, BadResponse} then RiskOnly(facts, app, mp, a, req) else facts == []
    case Err(Unclassified(timedOut)) => if timedOut then RiskOnly(facts, app, mp, a, req) else facts == []
  }

  predicate RiskOnly(facts: seq<Usage.Event>, app: string, mp: ModelProvider, a: Attempt, req: ChatRequest) {
    |facts| == 1 && facts[0].DoubleSpendRisked? && facts[0].app == app && facts[0].mp == mp
    && Estimated(facts[0].estimate, a, req)
  }

  /** What the last attempt makes of the request: the provider's own completion, or why there is none. */
  predicate Concludes(
    answer: Answer, fact: Usage.Event, settled: Option<int>, app: string, req: ChatRequest, mp: ModelProvider, tries: nat, a: Attempt)
  {
    match a.outcome
    case Ok(c) =>
      && answer == Ok(ChatResult(mp.model, mp.provider, mp.model != req.model, c.message, c.finish, c.usage))
      && fact == Usage.Completed(app, mp, c.usage, a.took, tries > 1)
      && settled == Some(c.usage.prompt + c.usage.completion)
    case Err(_) =>
      && settled == None
      && if a.callerGone then
           answer == Err(CallerDisconnected) && fact.Disconnected? && fact.app == app && fact.mp == mp && Estimated(fact.estimate, a, req)
         else if a.deadlinePassed then
           answer == Err(Refused(Told(GatewayTimeout))) && fact == Usage.Rejected(app, GatewayTimeout)
         else
           (answer == Err(Refused(Told(ModelUnavailable).(requestedModel := req.model))) && fact == Usage.Rejected(app, ModelUnavailable))
           || (answer == Err(Refused(Told(UpstreamFailed))) && fact == Usage.Rejected(app, UpstreamFailed))
  }

  /** The facts are one per billable lost attempt that did not end the request, then the concluding one. */
  ghost predicate Narrates(
    events: seq<Usage.Event>, app: string, req: ChatRequest, contacted: FailoverPlan.Table, tries: nat, script: nat -> Attempt)
    decreases |contacted|
  {
    if contacted == [] then |events| == 1
    else if Ends(script(tries)) then |events| == 1 && |contacted| == 1
    else
      exists facts ::
        facts <= events && Leaves(facts, app, contacted[0], script(tries), req)
        && Narrates(events[|facts|..], app, req, contacted[1..], tries + 1, script)
  }

  ghost predicate Explained(
    o: Outcome, app: string, req: ChatRequest, tries: nat, script: nat -> Attempt)
  {
    && o.events != []
    && Narrates(o.events, app, req, o.contacted, tries, script)
    && (o.contacted != [] ==>
          Concludes(o.answer, o.events[|o.events| - 1], o.settled, app, req, o.contacted[|o.contacted| - 1],
                    tries + |o.contacted|, script(tries + |o.contacted| - 1)))
  }

  /** How a request that ran out of targets is rejected. */
  predicate GivesUp(o: Outcome, app: string, req: ChatRequest) {
    && o.contacted == [] && o.settled == None
    && ((o.answer == Err(Refused(Told(ModelUnavailable).(requestedModel := req.model))) && o.events == [Usage.Rejected(app, ModelUnavailable)])
        || (o.answer == Err(Refused(Told(UpstreamFailed))) && o.events == [Usage.Rejected(app, UpstreamFailed)]))
  }

  lemma {:induction false} AttemptsExplained(
    app: string, req: ChatRequest, targets: FailoverPlan.Table, tries: nat, script: nat -> Attempt, exhausted: Outcome)
    requires GivesUp(exhausted, app, req)
    ensures Explained(Attempts(app, req, targets, tries, script, exhausted), app, req, tries, script)
    decreases |targets|
  {
    if targets != [] {
      var a, mp := script(tries), targets[0];
      match OneTry(app, req, mp, tries, a)
      case Final(o) => FinalExplained(app, req, mp, tries, script, o);
      case Next(facts) =>
        var rest := Attempts(app, req, targets[1..], tries + 1, script, exhausted);
        AttemptsExplained(app, req, targets[1..], tries + 1, script, exhausted);
        if targets[1..] != [] {
          FirstTargetIsContacted(app, req, targets[1..], tries + 1, script, exhausted);
        }
        NextExplained(app, req, mp, tries, script, facts, rest);
    }
  }

  lemma {:induction false} FinalExplained(app: string, req: ChatRequest, mp: ModelProvider, tries: nat, script: nat -> Attempt, o: Outcome)
    requires OneTry(app, req, mp, tries, script(tries)) == Final(o)
    ensures Explained(o, app, req, tries, script)
  {
    assert |o.events| == 1 && o.contacted == [mp] && Ends(script(tries));
  }

  lemma {:induction false} NextExplained(
    app: string, req: ChatRequest, mp: ModelProvider, tries: nat, script: nat -> Attempt, facts: seq<Usage.Event>,
    rest: Outcome)
    requires OneTry(app, req, mp, tries, script(tries)) == Next(facts)
    requires Explained(rest, app, req, tries + 1, script)
    requires rest.contacted == [] ==> GivesUp(rest, app, req)
    ensures Explained(After(facts, [mp], rest), app, req, tries, script)
  {
    LeavesWhatItShould(app, req, mp, tries, script(tries));
    MoreToTell(rest.events, facts, app, req, mp, rest.contacted, tries, script);
    if rest.contacted == [] {
      GivingUpConcludes(rest, app, req, mp, tries, script(tries));
    }
    LastStays(facts, [mp], rest);
  }

  /** A failed attempt nobody follows up leaves the answer to the exhausted plan. */
  lemma {:induction false} GivingUpConcludes(rest: Outcome, app: string, req: ChatRequest, mp: ModelProvider, tries: nat, a: Attempt)
    requires GivesUp(rest, app, req) && !Ends(a)
    ensures Concludes(rest.answer, rest.events[|rest.events| - 1], rest.settled, app, req, mp, tries + 1, a)
  {
  }

  lemma {:induction false} LastStays(facts: seq<Usage.Event>, before: FailoverPlan.Table, rest: Outcome)
    requires rest.events != []
    ensures
      var o := After(facts, before, rest);
      && o.events[|o.events| - 1] == rest.events[|rest.events| - 1]
      && (rest.contacted != [] ==> o.contacted[|o.contacted| - 1] == rest.contacted[|rest.contacted| - 1])
  {
  }

  lemma {:induction false} LeavesWhatItShould(app: string, req: ChatRequest, mp: ModelProvider, tries: nat, a: Attempt)
    requires OneTry(app, req, mp, tries, a).Next?
    ensures !Ends(a) && Leaves(OneTry(app, req, mp, tries, a).facts, app, mp, a, req)
  {
  }

  lemma {:induction false} MoreToTell(
    events: seq<Usage.Event>, facts: seq<Usage.Event>, app: string, req: ChatRequest, mp: ModelProvider,
    contacted: FailoverPlan.Table, tries: nat, script: nat -> Attempt)
    requires Narrates(events, app, req, contacted, tries + 1, script)
    requires !Ends(script(tries)) && Leaves(facts, app, mp, script(tries), req)
    ensures Narrates(facts + events, app, req, [mp] + contacted, tries, script)
  {
    assert (facts + events)[|facts|..] == events && ([mp] + contacted)[1..] == contacted;
    assert facts <= facts + events;
  }

  // ---- the whole request ----

  lemma {:induction false} AdmittedExplained(app: App, req: ChatRequest, table: FailoverPlan.Table, order: seq<string>, script: nat -> Attempt)
    ensures Explained(Admitted(app, req, table, order, script), app.name, req, 0, script)
  {
    var plan := FailoverPlan.Plan(req.model, app.policy, table, order);
    if plan != [] {
      AttemptsExplained(app.name, req, Targets(plan), 0, script,
                        Exhausted(app.name, req, |Targets(plan)|, multiset(plan) != multiset(table)));
    }
  }

  /** One fact for each limiter that was down, and no more. */
  function Degraded(app: string, allow: RateLimits.Verdict, check: RateLimits.Verdict): seq<Usage.Event> {
    (if allow.Err? then [Usage.FailedOpen(app)] else []) + (if check.Err? then [Usage.FailedOpen(app)] else [])
  }

  /**
   * A request that reached a provider says what its last attempt came to: a completion is
   * handed over as the provider gave it, recorded and settled at that provider's own usage;
   * a failure names the caller, the deadline or the exhausted plan. Before that the record
   * tells which limiter was down, and which lost attempts may be billed, at what estimate.
   */
  lemma {:induction false} AnswerIsTheLastAttempts(
    app: App, req: ChatRequest, allow: RateLimits.Verdict, check: RateLimits.Verdict, slot: Slots.Answer,
    table: FailoverPlan.Table, order: seq<string>, script: nat -> Attempt)
    requires Respond(Some(app), req, allow, check, slot, table, order, script).contacted != []
    ensures
      var o, down := Respond(Some(app), req, allow, check, slot, table, order, script), Degraded(app.name, allow, check);
      && down <= o.events
      && Explained(o.(events := o.events[|down|..]), app.name, req, 0, script)
  {
    OnlyAdmittedReachProviders(app, req, allow, check, slot, table, order, script);
    AdmittedExplained(app, req, table, order, script);
    var o, down := Respond(Some(app), req, allow, check, slot, table, order, script), Degraded(app.name, allow, check);
    var held := Admitted(app, req, table, order, script);
    HeldBehindGates(app, req, allow, check, slot, table, order, script);
    assert (down + held.events)[|down|..] == held.events;
  }

  /** The same, of an outcome at hand: what the facts behind the limiters' explain. */
  lemma {:induction false} OutcomeExplained(
    app: App, req: ChatRequest, allow: RateLimits.Verdict, check: RateLimits.Verdict, slot: Slots.Answer,
    table: FailoverPlan.Table, order: seq<string>, script: nat -> Attempt, o: Outcome)
    returns (told: Outcome)
    requires o == Respond(Some(app), req, allow, check, slot, table, order, script) && o.contacted != []
    ensures told.answer == o.answer && told.contacted == o.contacted && told.settled == o.settled
    ensures Explained(told, app.name, req, 0, script)
  {
    AnswerIsTheLastAttempts(app, req, allow, check, slot, table, order, script);
    told := o.(events := o.events[|Degraded(app.name, allow, check)|..]);
  }

  lemma {:induction false} HeldBehindGates(
    app: App, req: ChatRequest, allow: RateLimits.Verdict, check: RateLimits.Verdict, slot: Slots.Answer,
    table: FailoverPlan.Table, order: seq<string>, script: nat -> Attempt)
    requires Admits(req, allow, check, slot)
    ensures
      var held := Admitted(app, req, table, order, script);
      Respond(Some(app), req, allow, check, slot, table, order, script)
        == held.(events := Degraded(app.name, allow, check) + held.events)
  {
    PassesGates(app.name, allow, check, Admitted(app, req, table, order, script));
  }

  lemma {:induction false} PassesGates(app: string, allow: RateLimits.Verdict, check: RateLimits.Verdict, held: Outcome)
    requires !Refuses(allow) && !Refuses(check)
    ensures Gate(app, allow, Gate(app, check, held)) == held.(events := Degraded(app, allow, check) + held.events)
  {
    var f, g := FailOpen(app, allow), FailOpen(app, check);
    assert f + (g + held.events) == f + g + held.events;
    assert [] + ([] + held.contacted) == held.contacted;
  }

  /** The caller holds a completion exactly when the last provider contacted gave one, and then that one, recorded and settled. */
  ghost predicate HandsOver(o: Outcome, app: string, script: nat -> Attempt) {
    && (o.answer.Ok? <==> o.contacted != [] && script(|o.contacted| - 1).outcome.Ok?)
    && (o.answer.Ok? ==>
          var mp, c, res := o.contacted[|o.contacted| - 1], script(|o.contacted| - 1).outcome.value, o.answer.value;
          && res.message == c.message && res.finish == c.finish && res.usage == c.usage
          && res.model == mp.model && res.provider == mp.provider
          && o.settled == Some(c.usage.prompt + c.usage.completion)
          && o.events != []
          && o.events[|o.events| - 1]
               == Usage.Completed(app, mp, c.usage, script(|o.contacted| - 1).took, |o.contacted| == 2))
  }

  lemma {:induction false} ExplainedHandsOver(o: Outcome, down: seq<Usage.Event>, app: string, req: ChatRequest, script: nat -> Attempt)
    requires down <= o.events && 0 < |o.contacted| <= 2
    requires Explained(o.(events := o.events[|down|..]), app, req, 0, script)
    ensures HandsOver(o, app, script)
  {
    var told := o.events[|down|..];
    assert told[|told| - 1] == o.events[|o.events| - 1];
  }

  /**
   * The caller gets a completion exactly when the last provider contacted gave one, and then
   * that one: its message, finish reason and usage, from that model and provider; the last
   * fact records that usage and the same usage is settled.
   */
  lemma {:induction false} ServedIsWhatTheProviderGave(
    app: App, req: ChatRequest, allow: RateLimits.Verdict, check: RateLimits.Verdict, slot: Slots.Answer,
    table: FailoverPlan.Table, order: seq<string>, script: nat -> Attempt)
    ensures HandsOver(Respond(Some(app), req, allow, check, slot, table, order, script), app.name, script)
  {
    var o := Respond(Some(app), req, allow, check, slot, table, order, script);
    if o.contacted == [] {
      RefusalNamesItsCause(app, req, allow, check, slot, table, order, script);
    } else {
      AnswerIsTheLastAttempts(app, req, allow, check, slot, table, order, script);
      ContactsFollowPolicy(app, req, allow, check, slot, table, order, script);
      ExplainedHandsOver(o, Degraded(app.name, allow, check), app.name, req, script);
    }
  }

  /** Whom it contacts: the first rows of different providers in its plan, until an attempt ends it. */
  lemma {:induction false} ContactsAreThePlans(
    app: App, req: ChatRequest, allow: RateLimits.Verdict, check: RateLimits.Verdict, slot: Slots.Answer,
    table: FailoverPlan.Table, order: seq<string>, script: nat -> Attempt)
    requires Respond(Some(app), req, allow, check, slot, table, order, script).contacted != []
    ensures
      var plan := FailoverPlan.Plan(req.model, app.policy, table, order);
      var contacted := Respond(Some(app), req, allow, check, slot, table, order, script).contacted;
      && plan != [] && contacted[0] == plan[0]
      && (|contacted| == 1 ==> Ends(script(0)) || forall j :: 0 <= j < |plan| ==> plan[j].provider == plan[0].provider)
      && (|contacted| > 1 ==>
            && !Ends(script(0)) && |contacted| == 2
            && exists k :: 0 < k < |plan| && contacted[1] == plan[k] && plan[k].provider != plan[0].provider
                 && forall j :: 0 <= j < k ==> plan[j].provider == plan[0].provider)
  {
    var plan := FailoverPlan.Plan(req.model, app.policy, table, order);
    OnlyAdmittedReachProviders(app, req, allow, check, slot, table, order, script);
    RespondOrAdmitted(app, req, allow, check, slot, table, order, script);
    TargetsAreFirstTwoProviders(plan);
    ContactsAreCutTargets(app.name, req, Targets(plan), 0, script,
                          Exhausted(app.name, req, |Targets(plan)|, multiset(plan) != multiset(table)));
  }
}
