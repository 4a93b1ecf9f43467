/** The edge: what a caller sees of the gateway's answer. */
module Handler {
  import opened Wrappers
  import opened Domain
  import opened Windows
  import Chat
  import ChatAnswers
  import ChatProperties
  import FailoverPlan
  import PlanProperties
  import OpenApi
  import RateLimits
  import QuotaStore
  import Slots
  import Usage

  /** Zero values are left out of the body. */
  datatype Details = Details(retryAfterSeconds: nat, quota: Option<QuotaDetail>, maxInFlight: int, requestedModel: string)

  datatype ApiError = ApiError(status: nat, code: ErrorCode, details: Option<Details>)

  datatype Reply =
    | Completed(substitutedHeader: bool, model: string, message: OpenApi.MessageWire, finish: FinishReason, usage: Domain.Usage)
    | Failed(retryAfterHeader: Option<nat>, error: ApiError)
    | ClientClosed

  const NO_DETAILS := Details(0, None, 0, "")

  function StatusFor(code: ErrorCode): nat {
    match code
    case InvalidRequest => 400
    case Unauthorized => 401
    case QuotaExceeded => 429
    case ConcurrencyCeiling => 429
    case UpstreamFailed => 502
    case ModelUnavailable => 503
    case GatewayTimeout => 504
  }

  // ---- specification ----

  /** The whole seconds named, the fields the code carries, and nothing else. */
  predicate Tells(ae: ApiError, e: Error) {
    var d := if ae.details.Some? then ae.details.value else NO_DETAILS;
    && ae.code == e.code && ae.status == StatusFor(e.code)
    && ae.details != Some(NO_DETAILS)
    && d.retryAfterSeconds == CeilSeconds(e.retryAfter)
    && d.quota == e.quota
    && d.maxInFlight == (if e.maxInFlight > 0 then e.maxInFlight else 0)
    && d.requestedModel == e.requestedModel
  }

  function HeaderOf(ae: ApiError): Option<nat> {
    if ae.details.Some? && ae.details.value.retryAfterSeconds > 0 then Some(ae.details.value.retryAfterSeconds) else None
  }

  ghost predicate Shows(reply: Reply, answer: Chat.Answer) {
    match answer
    case Ok(res) => reply == Completed(res.substituted, res.model, OpenApi.ToWire(res.message), res.finish, res.usage)
    case Err(Refused(e)) => reply.Failed? && Tells(reply.error, e) && reply.retryAfterHeader == HeaderOf(reply.error)
    case Err(CallerDisconnected) => reply == ClientClosed
  }

  // ---- the code ----

  method FromGatewayError(e: Error) returns (ae: ApiError)
    ensures Tells(ae, e)
  {
    ae := ApiError(StatusFor(e.code), e.code, None);
    var d := NO_DETAILS;
    if e.retryAfter > 0 {
      d := d.(retryAfterSeconds := CeilSeconds(e.retryAfter));
    }
    if e.quota.Some? {
      d := d.(quota := Some(QuotaDetail(e.quota.value.limit, e.quota.value.windowSeconds, e.quota.value.used)));
    }
    if e.maxInFlight > 0 {
      d := d.(maxInFlight := e.maxInFlight);
    }
    if e.requestedModel != "" {
      d := d.(requestedModel := e.requestedModel);
    }
    if d != NO_DETAILS {
      ae := ae.(details := Some(d));
    }
  }

  method WriteAnswer(answer: Chat.Answer) returns (reply: Reply)
    ensures Shows(reply, answer)
  {
    match answer {
      case Ok(res) =>
        var message := OpenApi.MessageToWire(res.message);
        reply := Completed(res.substituted, res.model, message, res.finish, res.usage);
      case Err(Refused(e)) =>
        var ae := FromGatewayError(e);
        reply := Failed(HeaderOf(ae), ae);
      case Err(CallerDisconnected) =>
        reply := ClientClosed;
    }
  }

  // ---- properties ----

  /** The hint is whole seconds, never short and never a full second long. */
  lemma {:induction false} HintRoundsUp(reply: Reply, e: Error)
    requires Shows(reply, Err(Chat.Refused(e)))
    ensures reply.retryAfterHeader.Some? <==> e.retryAfter > 0
    ensures reply.retryAfterHeader.Some? ==>
              e.retryAfter <= reply.retryAfterHeader.value * SECOND < e.retryAfter + SECOND
  {
    assert CeilSeconds(e.retryAfter) > 0 <==> e.retryAfter > 0;
  }

  /** A 429 says when to retry and nothing else does; a substitution is flagged, and only a substitution. */
  predicate Candid(answer: Chat.Answer, req: ChatRequest) {
    match answer
    case Ok(res) => res.substituted <==> res.model != req.model
    case Err(Refused(e)) => StatusFor(e.code) == 429 <==> e.retryAfter > 0
    case Err(CallerDisconnected) => true
  }

  lemma {:induction false} AttemptsCandid(
    app: string, req: ChatRequest, targets: FailoverPlan.Table, tries: nat, script: nat -> Chat.Attempt, exhausted: Chat.Outcome)
    requires Candid(exhausted.answer, req)
    ensures Candid(Chat.Attempts(app, req, targets, tries, script, exhausted).answer, req)
  {
    if targets != [] {
      AttemptsCandid(app, req, targets[1..], tries + 1, script, exhausted);
    }
  }

  lemma {:induction false} ClaimingCandid(
    app: App, req: ChatRequest, slot: Slots.Answer, table: FailoverPlan.Table, order: seq<string>, script: nat -> Chat.Attempt)
    ensures Candid(Chat.Claiming(app, req, slot, table, order, script).answer, req)
  {
    AdmittedCandid(app, req, table, order, script);
  }

  lemma {:induction false} AdmittedCandid(app: App, req: ChatRequest, table: FailoverPlan.Table, order: seq<string>, script: nat -> Chat.Attempt)
    ensures Candid(Chat.Admitted(app, req, table, order, script).answer, req)
  {
    var plan := FailoverPlan.Plan(req.model, app.policy, table, order);
    AttemptsCandid(app.name, req, Chat.Targets(plan), 0, script,
                   Chat.Exhausted(app.name, req, |Chat.Targets(plan)|, multiset(plan) != multiset(table)));
  }

  /** A refusal that names when to come back. */
  predicate Hinted(v: RateLimits.Verdict) {
    Chat.Refuses(v) ==> v.value.retryAfter > 0
  }

  lemma {:induction false} LimitersHint(limits: map<string, int>, s: QuotaStore.Entries, when: Moment, app: string, link: QuotaStore.Link)
    ensures Hinted(RateLimits.AllowVerdict(limits, s, when, app, link))
    ensures Hinted(RateLimits.CheckVerdict(limits, s, when, app, link))
  {
    HonestRetry(Requests, when.clock);
    HonestRetry(Tokens, when.clock);
  }

  lemma {:induction false} RespondCandid(
    known: Option<App>, req: ChatRequest, allow: RateLimits.Verdict, check: RateLimits.Verdict, slot: Slots.Answer,
    table: FailoverPlan.Table, order: seq<string>, script: nat -> Chat.Attempt)
    requires Hinted(allow) && Hinted(check)
    ensures Candid(Chat.Respond(known, req, allow, check, slot, table, order, script).answer, req)
  {
    if known.Some? {
      ClaimingCandid(known.value, req, slot, table, order, script);
    }
  }

  /**
   * Every reply the gateway gives, whatever the limits, the store, the times, the links and the slots:
   * Retry-After on exactly the 429s, the substitution header on exactly the substitutions.
   */
  lemma {:induction false} EveryReplyIsCandid(
    reply: Reply, known: Option<App>, req: ChatRequest, limits: map<string, int>, budgets: map<string, int>,
    counted: QuotaStore.Entries, checked: QuotaStore.Entries, w: Chat.Weather, slot: Slots.Answer,
    table: FailoverPlan.Table, order: seq<string>, script: nat -> Chat.Attempt)
    requires
      var app := Chat.NameOf(known);
      var allow := RateLimits.AllowVerdict(limits, counted, w.allowAt, app, w.allowLink);
      var check := RateLimits.CheckVerdict(budgets, checked, w.checkAt, app, w.checkLink);
      Shows(reply, Chat.Respond(known, req, allow, check, slot, table, order, script).answer)
    ensures reply.Completed? ==> (reply.substitutedHeader <==> reply.model != req.model)
    ensures reply.Failed? ==> (reply.retryAfterHeader.Some? <==> reply.error.status == 429)
  {
    var app := Chat.NameOf(known);
    var allow := RateLimits.AllowVerdict(limits, counted, w.allowAt, app, w.allowLink);
    var check := RateLimits.CheckVerdict(budgets, checked, w.checkAt, app, w.checkLink);
    LimitersHint(limits, counted, w.allowAt, app, w.allowLink);
    LimitersHint(budgets, checked, w.checkAt, app, w.checkLink);
    RespondCandid(known, req, allow, check, slot, table, order, script);
    CandidShows(reply, Chat.Respond(known, req, allow, check, slot, table, order, script).answer, req);
  }

  lemma {:induction false} CandidShows(reply: Reply, answer: Chat.Answer, req: ChatRequest)
    requires Shows(reply, answer) && Candid(answer, req)
    ensures reply.Completed? ==> (reply.substitutedHeader <==> reply.model != req.model)
    ensures reply.Failed? ==> (reply.retryAfterHeader.Some? <==> reply.error.status == 429)
  {
    if answer.Err? && answer.error.Refused? {
      HintRoundsUp(reply, answer.error.error);
    }
  }

  // ---- the status tells the cause ----

  predicate Status(reply: Reply, status: nat) {
    reply.Failed? && reply.error.status == status
  }

  /** Nobody known: 401, and no word on when to come back. */
  lemma {:induction false} UnknownCallerIsUnauthorized(
    reply: Reply, req: ChatRequest, allow: RateLimits.Verdict, check: RateLimits.Verdict, slot: Slots.Answer,
    table: FailoverPlan.Table, order: seq<string>, script: nat -> Chat.Attempt)
    requires Shows(reply, Chat.Respond(None, req, allow, check, slot, table, order, script).answer)
    ensures Status(reply, 401) && reply.retryAfterHeader.None? && reply.error.details.None?
  {
  }

  /** What a caller is told of a request no provider heard of. */
  predicate TellsRefusal(reply: Reply, req: ChatRequest, allow: RateLimits.Verdict, check: RateLimits.Verdict, slot: Slots.Answer) {
    if req.model == "" || req.messages == [] || req.maxTokens < 1 || |req.stop| > 4 then Status(reply, 400)
    else if Chat.Refuses(allow) then Status(reply, 429) && NamesQuota(reply, allow.value.quota)
    else if Chat.Refuses(check) then Status(reply, 429) && NamesQuota(reply, check.value.quota)
    else if slot.Refused? then
      Status(reply, 429) && reply.retryAfterHeader == Some(1) && NamesCeiling(reply, slot.ceiling)
    else Status(reply, 503) && reply.error.details.Some? && reply.error.details.value.requestedModel == req.model
  }

  lemma {:induction false} CauseTold(
    reply: Reply, e: Error, app: App, req: ChatRequest, allow: RateLimits.Verdict, check: RateLimits.Verdict, slot: Slots.Answer,
    table: FailoverPlan.Table)
    requires ChatAnswers.RefusedWith(e, app, req, allow, check, slot, table) && Shows(reply, Err(Chat.Refused(e)))
    ensures TellsRefusal(reply, req, allow, check, slot)
  {
  }

  /** Refused before any provider: 400 for the request, 429 for the quota, the budget and the slots, with what refused; 503 for a model nobody serves. */
  lemma {:induction false} RefusalStatus(
    reply: Reply, app: App, req: ChatRequest, allow: RateLimits.Verdict, check: RateLimits.Verdict, slot: Slots.Answer,
    table: FailoverPlan.Table, order: seq<string>, script: nat -> Chat.Attempt, o: Chat.Outcome)
    requires o == Chat.Respond(Some(app), req, allow, check, slot, table, order, script)
    requires o.contacted == [] && Shows(reply, o.answer)
    ensures TellsRefusal(reply, req, allow, check, slot)
  {
    ChatAnswers.RefusalNamesItsCause(app, req, allow, check, slot, table, order, script);
    CauseTold(reply, o.answer.error.error, app, req, allow, check, slot, table);
  }

  predicate NamesQuota(reply: Reply, quota: QuotaDetail)
    requires reply.Failed?
  {
    reply.error.details.Some? && reply.error.details.value.quota == Some(quota)
  }

  /** A ceiling that refuses is positive. */
  predicate NamesCeiling(reply: Reply, ceiling: int)
    requires reply.Failed?
  {
    reply.error.details.Some? && reply.error.details.value.maxInFlight == if ceiling > 0 then ceiling else 0
  }

  /** What a caller is told of the last attempt made for it. */
  predicate TellsAttempt(reply: Reply, app: App, req: ChatRequest, table: FailoverPlan.Table, tries: nat, mp: ModelProvider, a: Chat.Attempt) {
    match a.outcome
    case Ok(c) =>
      && reply.Completed? && reply.model == mp.model && (reply.substitutedHeader <==> mp.model != req.model)
      && OpenApi.Displays(reply.message, c.message) && reply.finish == c.finish && reply.usage == c.usage
    case Err(_) =>
      if a.callerGone then reply == ClientClosed
      else if a.deadlinePassed then Status(reply, 504)
      else if tries == 1 && exists r :: r in table && !PlanProperties.Permits(app.policy, req.model, r.model) then Status(reply, 503)
      else Status(reply, 502)
  }

  lemma {:induction false} EndedAttemptTold(
    reply: Reply, answer: Chat.Answer, fact: Usage.Event, settled: Option<int>, app: App, req: ChatRequest,
    table: FailoverPlan.Table, tries: nat, mp: ModelProvider, a: Chat.Attempt)
    requires ChatAnswers.Concludes(answer, fact, settled, app.name, req, mp, tries, a) && ChatProperties.Ends(a)
    requires Shows(reply, answer)
    ensures TellsAttempt(reply, app, req, table, tries, mp, a)
  {
    if a.outcome.Ok? {
      OpenApi.ToWireDisplays(a.outcome.value.message);
    }
  }

  lemma {:induction false} ExhaustionTold(
    reply: Reply, e: Error, app: App, req: ChatRequest, table: FailoverPlan.Table, tries: nat, mp: ModelProvider, a: Chat.Attempt)
    requires !ChatProperties.Ends(a) && Shows(reply, Err(Chat.Refused(e)))
    requires e == if tries == 1 && !PlanProperties.AllPermitted(app.policy, req.model, table)
                  then Error(ModelUnavailable, 0, None, 0, req.model) else Error(UpstreamFailed, 0, None, 0, "")
    ensures TellsAttempt(reply, app, req, table, tries, mp, a)
  {
  }

  lemma {:induction false} ExplainedAttemptTold(
    reply: Reply, o: Chat.Outcome, app: App, req: ChatRequest, table: FailoverPlan.Table, script: nat -> Chat.Attempt)
    requires o.contacted != [] && ChatProperties.Ends(script(|o.contacted| - 1))
    requires ChatAnswers.Explained(o, app.name, req, 0, script)
    requires Shows(reply, o.answer)
    ensures TellsAttempt(reply, app, req, table, |o.contacted|, o.contacted[|o.contacted| - 1], script(|o.contacted| - 1))
  {
    EndedAttemptTold(reply, o.answer, o.events[|o.events| - 1], o.settled, app, req, table,
                     |o.contacted|, o.contacted[|o.contacted| - 1], script(|o.contacted| - 1));
  }

  lemma {:induction false} EndedStatus(
    reply: Reply, app: App, req: ChatRequest, allow: RateLimits.Verdict, check: RateLimits.Verdict, slot: Slots.Answer,
    table: FailoverPlan.Table, order: seq<string>, script: nat -> Chat.Attempt, o: Chat.Outcome)
    requires o == Chat.Respond(Some(app), req, allow, check, slot, table, order, script)
    requires o.contacted != [] && ChatProperties.Ends(script(|o.contacted| - 1)) && Shows(reply, o.answer)
    ensures TellsAttempt(reply, app, req, table, |o.contacted|, o.contacted[|o.contacted| - 1], script(|o.contacted| - 1))
  {
    var told := ChatAnswers.OutcomeExplained(app, req, allow, check, slot, table, order, script, o);
    ExplainedAttemptTold(reply, told, app, req, table, script);
  }

  lemma {:induction false} ExhaustedStatus(
    reply: Reply, app: App, req: ChatRequest, allow: RateLimits.Verdict, check: RateLimits.Verdict, slot: Slots.Answer,
    table: FailoverPlan.Table, order: seq<string>, script: nat -> Chat.Attempt, o: Chat.Outcome)
    requires o == Chat.Respond(Some(app), req, allow, check, slot, table, order, script)
    requires o.contacted != [] && !ChatProperties.Ends(script(|o.contacted| - 1)) && Shows(reply, o.answer)
    ensures TellsAttempt(reply, app, req, table, |o.contacted|, o.contacted[|o.contacted| - 1], script(|o.contacted| - 1))
  {
    ChatProperties.OnlyAdmittedReachProviders(app, req, allow, check, slot, table, order, script);
    ChatProperties.RespondOrAdmitted(app, req, allow, check, slot, table, order, script);
    ChatProperties.ExhaustedAnswer(app, req, allow, check, slot, table, order, script);
    ExhaustionTold(reply, o.answer.error.error, app, req, table, |o.contacted|, o.contacted[|o.contacted| - 1],
                   script(|o.contacted| - 1));
  }

  /**
   * After any contact: the provider's own completion under the model that served it; nothing for a
   * caller who left; 504 for the deadline; and when every attempt failed, 503 exactly when the one
   * provider tried was all the app's policy left of a larger table, else 502.
   */
  lemma {:induction false} OutcomeStatus(
    reply: Reply, app: App, req: ChatRequest, allow: RateLimits.Verdict, check: RateLimits.Verdict, slot: Slots.Answer,
    table: FailoverPlan.Table, order: seq<string>, script: nat -> Chat.Attempt, o: Chat.Outcome)
    requires o == Chat.Respond(Some(app), req, allow, check, slot, table, order, script)
    requires o.contacted != [] && Shows(reply, o.answer)
    ensures TellsAttempt(reply, app, req, table, |o.contacted|, o.contacted[|o.contacted| - 1], script(|o.contacted| - 1))
  {
    if ChatProperties.Ends(script(|o.contacted| - 1)) {
      EndedStatus(reply, app, req, allow, check, slot, table, order, script, o);
    } else {
      ExhaustedStatus(reply, app, req, allow, check, slot, table, order, script, o);
    }
  }

  /** Whoever waits, from the gateway's reading of the clock, the seconds a quota refusal's header names lands in exactly the next window. */
  lemma {:induction false} HeaderIsHonest(
    reply: Reply, c: Currency, limits: map<string, int>, s: QuotaStore.Entries, when: Moment, app: string, link: QuotaStore.Link)
    requires
      var v := if c == Requests then RateLimits.AllowVerdict(limits, s, when, app, link)
               else RateLimits.CheckVerdict(limits, s, when, app, link);
      Chat.Refuses(v) && Shows(reply, Chat.OverQuota(v.value.retryAfter, v.value.quota))
    ensures reply.Failed? && reply.retryAfterHeader.Some? && reply.error.status == 429
    ensures WindowOf(c, when.clock + reply.retryAfterHeader.value * SECOND) == WindowOf(c, when.clock) + 1
    ensures reply.error.details.Some? && reply.error.details.value.quota.Some?
    ensures reply.error.details.value.quota.value.windowSeconds == WindowSeconds(c)
  {
    HonestRetry(c, when.clock);
    assert RetryAfter(c, when.clock) > 0;
  }
}
