/** One request through the whole contract: `Service.Chat`. */
module Chat {
  import opened Wrappers
  import opened Domain
  import opened RateLimits
  import QuotaStore
  import Slots
  import Usage
  import FailoverPlan
  import Windows

  // ---- what the outside world may do ----

  datatype FaultKind = Unreachable | Timeout | ServerError | Throttled | BadResponse | RejectedKey

  /** A provider fault, possibly wrapped, or an error that is none. */
  datatype AttemptError =
    | Fault(kind: FaultKind, observed: Option<Domain.Usage>)
    | Unclassified(deadlineExceeded: bool)

  /** An attempt's outcome, how long it took, and the state of the caller's and the total deadline's contexts after it. */
  datatype Attempt = Attempt(outcome: Result<Completion, AttemptError>, took: nat, callerGone: bool, deadlinePassed: bool)

  /** When each store call is stamped and when its script runs, and whether it gets through. */
  datatype Weather = Weather(
    allowAt: Windows.Moment, allowLink: QuotaStore.Link,
    checkAt: Windows.Moment, checkLink: QuotaStore.Link,
    settleAt: Windows.Moment, settleLink: QuotaStore.Link)

  /** The provider may bill for tokens the gateway never received. */
  predicate BillsDespiteFailure(e: AttemptError) {
    match e
    case Fault(kind, _) => kind == Timeout || kind == BadResponse
    case Unclassified(deadlineExceeded) => deadlineExceeded
  }

  function UnobservedTokens(e: AttemptError, req: ChatRequest): int {
    match e
    case Fault(_, Some(usage)) => usage.total
    case _ => req.maxTokens
  }

  predicate ValidRequest(req: ChatRequest) {
    req.model != "" && req.messages != [] && req.maxTokens >= 1 && |req.stop| <= 4
  }

  // ---- what the caller gets ----

  datatype ChatResult = ChatResult(
    model: string, provider: string, substituted: bool, message: Message, finish: FinishReason, usage: Domain.Usage)

  datatype Failure = Refused(error: Error) | CallerDisconnected

  type Answer = Result<ChatResult, Failure>

  function Plain(code: ErrorCode): Answer {
    Err(Refused(Error(code, 0, None, 0, "")))
  }

  function OverQuota(retryAfter: nat, quota: QuotaDetail): Answer {
    Err(Refused(Error(QuotaExceeded, retryAfter, Some(quota), 0, "")))
  }

  function AtCeiling(ceiling: int): Answer {
    Err(Refused(Error(ConcurrencyCeiling, Windows.SECOND, None, ceiling, "")))
  }

  function Unserved(model: string): Answer {
    Err(Refused(Error(ModelUnavailable, 0, None, 0, model)))
  }

  function Serve(req: ChatRequest, mp: ModelProvider, c: Completion): Answer {
    Ok(ChatResult(mp.model, mp.provider, mp.model != req.model, c.message, c.finish, c.usage))
  }

  // ---- specification ----

  const MAX_ATTEMPTS := 2

  /** The first entry of each provider not yet tried. */
  function FirstOfEachProvider(plan: FailoverPlan.Table, tried: set<string>): FailoverPlan.Table {
    if plan == [] then []
    else if plan[0].provider in tried then FirstOfEachProvider(plan[1..], tried)
    else [plan[0]] + FirstOfEachProvider(plan[1..], tried + {plan[0].provider})
  }

  function Take<T>(s: seq<T>, n: nat): seq<T> {
    if |s| <= n then s else s[..n]
  }

  /** Whom a request may contact: at most two, of different providers. */
  function Targets(plan: FailoverPlan.Table): FailoverPlan.Table {
    Take(FirstOfEachProvider(plan, {}), MAX_ATTEMPTS)
  }

  /** What one request did: its answer, the facts recorded, the providers contacted, the cost to settle. */
  datatype Outcome = Outcome(
    answer: Answer, events: seq<Usage.Event>, contacted: FailoverPlan.Table, settled: Option<int>)

  function After(events: seq<Usage.Event>, contacted: FailoverPlan.Table, o: Outcome): Outcome {
    o.(events := events + o.events, contacted := contacted + o.contacted)
  }

  /** One attempt either ends the request or leaves facts behind. */
  datatype Turn = Final(outcome: Outcome) | Next(facts: seq<Usage.Event>)

  function OneTry(app: string, req: ChatRequest, mp: ModelProvider, tries: nat, a: Attempt): Turn {
    match a.outcome
    case Ok(c) =>
      Final(Outcome(Serve(req, mp, c), [Usage.Completed(app, mp, c.usage, a.took, tries > 0)], [mp],
                    Some(c.usage.prompt + c.usage.completion)))
    case Err(e) =>
      if a.callerGone then
        Final(Outcome(Err(CallerDisconnected), [Usage.Disconnected(app, mp, UnobservedTokens(e, req))], [mp], None))
      else if a.deadlinePassed then
        Final(Outcome(Plain(GatewayTimeout), [Usage.Rejected(app, GatewayTimeout)], [mp], None))
      else
        Next(if BillsDespiteFailure(e) then [Usage.DoubleSpendRisked(app, mp, UnobservedTokens(e, req))] else [])
  }

  /** Trying the targets left, `tries` having failed before them; `exhausted` answers when none is left. */
  function Attempts(
    app: string, req: ChatRequest, targets: FailoverPlan.Table, tries: nat, script: nat -> Attempt, exhausted: Outcome)
    : Outcome
  {
    if targets == [] then exhausted
    else
      match OneTry(app, req, targets[0], tries, script(tries))
      case Final(o) => o
      case Next(facts) => After(facts, [targets[0]], Attempts(app, req, targets[1..], tries + 1, script, exhausted))
  }

  function Reject(app: string, code: ErrorCode, answer: Answer): Outcome {
    Outcome(answer, [Usage.Rejected(app, code)], [], None)
  }

  /** Running out of targets is the policy's doing only when fewer than two were tried and rows were left out. */
  function Exhausted(app: string, req: ChatRequest, tries: nat, constrained: bool): Outcome {
    if tries < MAX_ATTEMPTS && constrained
    then Reject(app, ModelUnavailable, Unserved(req.model))
    else Reject(app, UpstreamFailed, Plain(UpstreamFailed))
  }

  /** A request holding its slot. */
  ghost function Admitted(app: App, req: ChatRequest, table: FailoverPlan.Table, order: seq<string>, script: nat -> Attempt): Outcome {
    var plan := FailoverPlan.Plan(req.model, app.policy, table, order);
    if plan == [] then Reject(app.name, ModelUnavailable, Unserved(req.model))
    else Attempts(app.name, req, Targets(plan), 0, script,
                  Exhausted(app.name, req, |Targets(plan)|, multiset(plan) != multiset(table)))
  }

  function FailOpen(app: string, v: Verdict): seq<Usage.Event> {
    if v.Err? then [Usage.FailedOpen(app)] else []
  }

  predicate Refuses(v: Verdict) {
    v.Ok? && v.value.Refuse?
  }

  /** From the slot claim on. */
  ghost function Claiming(
    app: App, req: ChatRequest, slot: Slots.Answer, table: FailoverPlan.Table, order: seq<string>, script: nat -> Attempt)
    : Outcome
  {
    match slot
    case Refused(ceiling) => Reject(app.name, ConcurrencyCeiling, AtCeiling(ceiling))
    case Granted => Admitted(app, req, table, order, script)
  }

  /** A rate verdict, then what follows it: only a refusal stops the request, an error never does. */
  function Gate(app: string, v: Verdict, next: Outcome): Outcome {
    if Refuses(v) then Reject(app, QuotaExceeded, OverQuota(v.value.retryAfter, v.value.quota))
    else After(FailOpen(app, v), [], next)
  }

  /** The whole contract as a function of each port's verdict. */
  ghost function Respond(
    known: Option<App>, req: ChatRequest, allow: Verdict, check: Verdict, slot: Slots.Answer,
    table: FailoverPlan.Table, order: seq<string>, script: nat -> Attempt): Outcome
  {
    match known
    case None => Outcome(Plain(Unauthorized), [], [], None)
    case Some(app) =>
      if !ValidRequest(req) then Reject(app.name, InvalidRequest, Plain(InvalidRequest))
      else Gate(app.name, allow, Gate(app.name, check, Claiming(app, req, slot, table, order, script)))
  }

  function NameOf(known: Option<App>): string {
    if known.Some? then known.value.name else ""
  }

  datatype World = World(entries: QuotaStore.Entries, slots: Slots.State, log: seq<Usage.Event>, calls: FailoverPlan.Table)

  // ---- the code ----

  /** The provider port: an adversary's script of outcomes, and who was called. */
  class Provider {
    const script: nat -> Attempt
    var calls: FailoverPlan.Table

    constructor (script: nat -> Attempt)
      ensures this.script == script && calls == []
    {
      this.script, calls := script, [];
    }

    method Complete(mp: ModelProvider) returns (a: Attempt)
      modifies this
      ensures calls == old(calls) + [mp] && a == script(|old(calls)|)
    {
      a := script(|calls|);
      calls := calls + [mp];
    }
  }

  class Service {
    const table: array<ModelProvider>
    const order: seq<string>
    const limits: RateLimits.Limiter
    const tokens: RateLimits.TokenLimiter
    const slots: Slots.Limiter
    const usage: Usage.UsageRecorder

    constructor (table: array<ModelProvider>, order: seq<string>, limits: RateLimits.Limiter,
                 tokens: RateLimits.TokenLimiter, slots: Slots.Limiter, usage: Usage.UsageRecorder)
      ensures this.table == table && this.order == order && this.limits == limits
      ensures this.tokens == tokens && this.slots == slots && this.usage == usage
    {
      this.table, this.order := table, order;
      this.limits, this.tokens, this.slots, this.usage := limits, tokens, slots, usage;
    }

    /** Both rate limiters share one store; the adapters are in order. */
    ghost predicate Valid()
      reads slots, usage
    {
      tokens.store == limits.store && usage.Valid() && Slots.Clean(slots.View())
    }

    /** Everything a request can change. */
    function Snap(provider: Provider): World
      reads limits.store, slots, usage, provider
    {
      World(limits.store.entries, slots.View(), usage.next, provider.calls)
    }

    /** The slots come back; the facts, the contacts and the settled cost stay. */
    function Effect(before: World, app: string, o: Outcome, w: Weather): World {
      World(Settled(before.entries, app, o.settled, w), before.slots, before.log + o.events, before.calls + o.contacted)
    }

    lemma EffectAfter(before: World, app: string, facts: seq<Usage.Event>, contacted: FailoverPlan.Table, o: Outcome, w: Weather)
      ensures Effect(before.(log := before.log + facts, calls := before.calls + contacted), app, o, w)
           == Effect(before, app, After(facts, contacted, o), w)
    {
      assert before.log + facts + o.events == before.log + (facts + o.events);
      assert before.calls + contacted + o.contacted == before.calls + (contacted + o.contacted);
    }

    /** A failed attempt leaves the whole outcome to the targets after it. */
    lemma {:induction false} FailureContinues(
      before: World, app: string, req: ChatRequest, left: FailoverPlan.Table, tries: nat, script: nat -> Attempt, last: Outcome, w: Weather)
      requires left != [] && OneTry(app, req, left[0], tries, script(tries)).Next?
      ensures
        var facts := OneTry(app, req, left[0], tries, script(tries)).facts;
        var whole, rest := Attempts(app, req, left, tries, script, last), Attempts(app, req, left[1..], tries + 1, script, last);
        && rest.answer == whole.answer
        && Effect(before.(log := before.log + facts, calls := before.calls + [left[0]]), app, rest, w) == Effect(before, app, whole, w)
    {
      var facts := OneTry(app, req, left[0], tries, script(tries)).facts;
      EffectAfter(before, app, facts, [left[0]], Attempts(app, req, left[1..], tries + 1, script, last), w);
    }

    /** The store after a served completion has been debited. */
    function Settled(s: QuotaStore.Entries, app: string, settled: Option<int>, w: Weather): QuotaStore.Entries {
      match settled
      case None => s
      case Some(cost) => SettleEntries(tokens.budgets, s, w.settleAt, app, cost, w.settleLink)
    }

    /**
     * The answer, the facts recorded, the providers contacted and the store written
     * are the specification's; the slot is back, whichever way the call ended.
     */
    method Chat(known: Option<App>, req: ChatRequest, w: Weather, provider: Provider) returns (answer: Answer)
      requires Valid() && provider.calls == []
      modifies limits.store, slots, usage, provider
      ensures Valid()
      ensures
        var app, was := NameOf(known), old(limits.store.entries);
        // A request nobody may make, or that says nothing, is not counted.
        var counted :=
          if known.None? || req.model == "" || req.messages == [] || req.maxTokens < 1 || |req.stop| > 4 then was
          else AllowEntries(limits.limits, was, w.allowAt, app, w.allowLink);
        var o := Respond(known, req,
                         AllowVerdict(limits.limits, was, w.allowAt, app, w.allowLink),
                         CheckVerdict(tokens.budgets, counted, w.checkAt, app, w.checkLink),
                         Slots.Decide(slots.Conf(), old(slots.View()), app),
                         table[..], order, provider.script);
        && answer == o.answer
        && usage.next == old(usage.next) + o.events
        && provider.calls == o.contacted
        && limits.store.entries ==
             (if o.settled.None? then counted
              else SettleEntries(tokens.budgets, counted, w.settleAt, app, o.settled.value, w.settleLink))
        && slots.View() == old(slots.View())
    {
      if known.None? {
        return Plain(Unauthorized);
      }
      var app := known.value;
      if !ValidRequest(req) {
        usage.RecordRejection(app.name, InvalidRequest);
        return Plain(InvalidRequest);
      }
      answer := CountRequest(app, req, w, provider);
    }

    /** From the request quota on. */
    method CountRequest(app: App, req: ChatRequest, w: Weather, provider: Provider) returns (answer: Answer)
      requires Valid() && provider.calls == []
      modifies limits.store, slots, usage, provider
      ensures Valid()
      ensures
        var counted := AllowEntries(limits.limits, old(limits.store.entries), w.allowAt, app.name, w.allowLink);
        var o := Gate(app.name, AllowVerdict(limits.limits, old(limits.store.entries), w.allowAt, app.name, w.allowLink),
                      Checking(app, req, counted, old(slots.View()), w, table[..], provider.script));
        answer == o.answer && Snap(provider) == Effect(old(Snap(provider)).(entries := counted), app.name, o, w)
    {
      ghost var before := Snap(provider);
      var decision := limits.Allow(w.allowAt, app.name, w.allowLink);
      RecordVerdict(app.name, decision, provider);
      if Refuses(decision) {
        return OverQuota(decision.value.retryAfter, decision.value.quota);
      }
      ghost var facts, counted := FailOpen(app.name, decision), before.(entries := limits.store.entries);
      assert Snap(provider) == counted.(log := counted.log + facts, calls := counted.calls + []);
      EffectAfter(counted, app.name, facts, [], Checking(app, req, limits.store.entries, slots.View(), w, table[..], provider.script), w);
      answer := CheckTokens(app, req, w, provider);
    }

    /** An unmetered admission is recorded, a refusal too; an ordinary admission is not news. */
    method RecordVerdict(app: string, v: Verdict, ghost provider: Provider)
      requires usage.Valid()
      modifies usage
      ensures usage.Valid()
      ensures Snap(provider) == old(Snap(provider)).(log := old(usage.next)
                + if Refuses(v) then [Usage.Rejected(app, QuotaExceeded)] else FailOpen(app, v))
    {
      if v.Err? {
        usage.RecordRateLimiterFailOpen(app);
      } else if v.value.Refuse? {
        usage.RecordRejection(app, QuotaExceeded);
      }
    }

    /** What the token check and everything behind it come to. */
    ghost function Checking(
      app: App, req: ChatRequest, s: QuotaStore.Entries, slot: Slots.State, w: Weather, rows: FailoverPlan.Table, script: nat -> Attempt)
      : Outcome
    {
      Gate(app.name, CheckVerdict(tokens.budgets, s, w.checkAt, app.name, w.checkLink),
           Claiming(app, req, Slots.Decide(slots.Conf(), slot, app.name), rows, order, script))
    }

    /** From the token check on. */
    method CheckTokens(app: App, req: ChatRequest, w: Weather, provider: Provider) returns (answer: Answer)
      requires Valid() && provider.calls == []
      modifies limits.store, slots, usage, provider
      ensures Valid()
      ensures
        var o := Checking(app, req, old(limits.store.entries), old(slots.View()), w, table[..], provider.script);
        answer == o.answer && Snap(provider) == Effect(old(Snap(provider)), app.name, o, w)
    {
      ghost var before := Snap(provider);
      var budget := tokens.Check(w.checkAt, app.name, w.checkLink);
      RecordVerdict(app.name, budget, provider);
      if Refuses(budget) {
        return OverQuota(budget.value.retryAfter, budget.value.quota);
      }
      ghost var facts := FailOpen(app.name, budget);
      assert Snap(provider) == before.(log := before.log + facts, calls := before.calls + []);
      EffectAfter(before, app.name, facts, [],
                  Claiming(app, req, Slots.Decide(slots.Conf(), slots.View(), app.name), table[..], order, provider.script), w);
      answer := ClaimSlot(app, req, w, provider);
    }

    /** From the slot claim on; the deferred release runs on every path. */
    method ClaimSlot(app: App, req: ChatRequest, w: Weather, provider: Provider) returns (answer: Answer)
      requires Valid() && provider.calls == []
      modifies limits.store, slots, usage, provider
      ensures Valid()
      ensures
        var o := Claiming(app, req, Slots.Decide(slots.Conf(), old(slots.View()), app.name), table[..], order, provider.script);
        answer == o.answer && Snap(provider) == Effect(old(Snap(provider)), app.name, o, w)
    {
      var release, ceiling, ok := slots.TryAcquire(app.name);
      if !ok {
        usage.RecordRejection(app.name, ConcurrencyCeiling);
        return AtCeiling(ceiling);
      }
      Slots.ReleaseUndoesClaim(old(slots.View()), app.name);
      answer := Admit(app, req, w, provider);
      release.Call();
    }

    /** From the plan to the settled answer. */
    method Admit(app: App, req: ChatRequest, w: Weather, provider: Provider) returns (answer: Answer)
      requires tokens.store == limits.store && usage.Valid() && provider.calls == []
      modifies limits.store, usage, provider
      ensures usage.Valid()
      ensures
        var o := Admitted(app, req, table[..], order, provider.script);
        answer == o.answer && Snap(provider) == Effect(old(Snap(provider)), app.name, o, w)
    {
      var eligible, constrained := FailoverPlan.BuildPlan(req.model, app.policy, table, order);
      if eligible == [] {
        usage.RecordRejection(app.name, ModelUnavailable);
        return Unserved(req.model);
      }
      answer := TryEach(app, req, eligible, constrained, w, provider);
    }

    method TryEach(app: App, req: ChatRequest, eligible: FailoverPlan.Table, constrained: bool, w: Weather, provider: Provider)
      returns (answer: Answer)
      requires tokens.store == limits.store && usage.Valid() && provider.calls == []
      modifies limits.store, usage, provider
      ensures usage.Valid()
      ensures
        var o := Attempts(app.name, req, Targets(eligible), 0, provider.script, Exhausted(app.name, req, |Targets(eligible)|, constrained));
        answer == o.answer && Snap(provider) == Effect(old(Snap(provider)), app.name, o, w)
    {
      ghost var last := Exhausted(app.name, req, |Targets(eligible)|, constrained);
      ghost var whole := Effect(Snap(provider), app.name, Attempts(app.name, req, Targets(eligible), 0, provider.script, last), w);
      ghost var left := Targets(eligible);
      ghost var rest := Attempts(app.name, req, left, 0, provider.script, last);
      ghost var final := rest.answer;
      assert eligible[0..] == eligible;

      var attempts: nat := 0;
      var tried: set<string> := {};
      var i := 0;
      while i < |eligible| && attempts < MAX_ATTEMPTS
        invariant 0 <= i <= |eligible| && attempts <= MAX_ATTEMPTS && attempts == |provider.calls|
        invariant usage.Valid()
        invariant left == Remaining(eligible, i, tried, MAX_ATTEMPTS - attempts)
        invariant attempts + |left| == |Targets(eligible)|
        invariant rest == Attempts(app.name, req, left, attempts, provider.script, last)
        invariant final == rest.answer
        invariant whole == Effect(Snap(provider), app.name, rest, w)
      {
        var mp := eligible[i];
        NextTarget(eligible, i, tried, MAX_ATTEMPTS - attempts);
        i := i + 1;
        if mp.provider in tried {
          continue; // never the same provider twice
        }
        tried := tried + {mp.provider};
        attempts := attempts + 1;
        var done := TryTarget(app.name, req, mp, attempts, left, last, w, provider);
        if done.Some? {
          return done.value;
        }
        left := left[1..];
        rest := Attempts(app.name, req, left, attempts, provider.script, last);
      }
      assert left == [];

      answer := GiveUp(app.name, req, attempts < MAX_ATTEMPTS && constrained, w, provider);
    }

    /** The first of the targets left: it ends the request, or leaves it to the others. */
    method TryTarget(app: string, req: ChatRequest, mp: ModelProvider, attempts: nat,
                     ghost left: FailoverPlan.Table, ghost last: Outcome, w: Weather, provider: Provider)
      returns (done: Option<Answer>)
      requires tokens.store == limits.store && usage.Valid() && attempts == |provider.calls| + 1
      requires left != [] && left[0] == mp
      modifies limits.store, usage, provider
      ensures usage.Valid()
      ensures
        var whole := Attempts(app, req, left, attempts - 1, provider.script, last);
        var rest := Attempts(app, req, left[1..], attempts, provider.script, last);
        match done
        case Some(answer) => answer == whole.answer && Snap(provider) == Effect(old(Snap(provider)), app, whole, w)
        case None =>
          && |provider.calls| == attempts && rest.answer == whole.answer
          && Effect(Snap(provider), app, rest, w) == Effect(old(Snap(provider)), app, whole, w)
    {
      ghost var before := Snap(provider);
      done := TryOne(app, req, mp, attempts, w, provider);
      if done.None? {
        FailureContinues(before, app, req, left, attempts - 1, provider.script, last, w);
      }
    }

    /** Every target failed: the policy's trade, or the gateway's failure. */
    method GiveUp(app: string, req: ChatRequest, byPolicy: bool, ghost w: Weather, ghost provider: Provider) returns (answer: Answer)
      requires usage.Valid()
      modifies usage
      ensures usage.Valid()
      ensures
        var o := if byPolicy then Reject(app, ModelUnavailable, Unserved(req.model))
                 else Reject(app, UpstreamFailed, Plain(UpstreamFailed));
        answer == o.answer && Snap(provider) == Effect(old(Snap(provider)), app, o, w)
    {
      if byPolicy {
        usage.RecordRejection(app, ModelUnavailable);
        answer := Unserved(req.model);
      } else {
        usage.RecordRejection(app, UpstreamFailed);
        answer := Plain(UpstreamFailed);
      }
    }

    /** The body of the loop: one provider, one outcome. */
    method TryOne(app: string, req: ChatRequest, mp: ModelProvider, attempts: nat, w: Weather, provider: Provider)
      returns (done: Option<Answer>)
      requires tokens.store == limits.store && usage.Valid() && attempts == |provider.calls| + 1
      modifies limits.store, usage, provider
      ensures usage.Valid()
      ensures
        var before := old(Snap(provider));
        match OneTry(app, req, mp, attempts - 1, provider.script(attempts - 1))
        case Final(o) => done == Some(o.answer) && Snap(provider) == Effect(before, app, o, w)
        case Next(facts) =>
          done == None && Snap(provider) == before.(log := before.log + facts, calls := before.calls + [mp])
    {
      var a := provider.Complete(mp);
      if a.outcome.Ok? {
        var c := a.outcome.value;
        RecordServed(app, mp, c.usage, a.took, attempts > 1, w, provider);
        return Some(Serve(req, mp, c));
      }
      done := RecordFailure(app, req, mp, a.outcome.error, a.callerGone, a.deadlinePassed, provider);
    }

    /** The completion goes on record, then its tokens to the store. */
    method RecordServed(app: string, mp: ModelProvider, used: Domain.Usage, took: nat, failedOver: bool, w: Weather, ghost provider: Provider)
      requires tokens.store == limits.store && usage.Valid()
      modifies limits.store, usage
      ensures usage.Valid()
      ensures
        var before := old(Snap(provider));
        Snap(provider) == before.(log := before.log + [Usage.Completed(app, mp, used, took, failedOver)],
                                  entries := Settled(before.entries, app, Some(used.prompt + used.completion), w))
    {
      usage.RecordCompletion(app, mp, used, took, failedOver);
      var _ := tokens.Settle(w.settleAt, app, used.prompt + used.completion, w.settleLink);
    }

    /** A failed attempt ends the request when the caller or the deadline is gone; else it is recorded if it may be billed. */
    method RecordFailure(app: string, req: ChatRequest, mp: ModelProvider, e: AttemptError, callerGone: bool, deadlinePassed: bool,
                         ghost provider: Provider)
      returns (done: Option<Answer>)
      requires usage.Valid()
      modifies usage
      ensures usage.Valid()
      ensures
        var before := old(Snap(provider));
        match OneTry(app, req, mp, 0, Attempt(Err(e), 0, callerGone, deadlinePassed))
        case Final(o) => done == Some(o.answer) && Snap(provider) == before.(log := before.log + o.events)
        case Next(facts) => done == None && Snap(provider) == before.(log := before.log + facts)
    {
      if callerGone {
        usage.RecordClientDisconnect(app, mp, UnobservedTokens(e, req));
        return Some(Err(CallerDisconnected));
      }
      if deadlinePassed {
        usage.RecordRejection(app, GatewayTimeout);
        return Some(Plain(GatewayTimeout));
      }
      if BillsDespiteFailure(e) {
        usage.RecordDoubleSpendRisk(app, mp, UnobservedTokens(e, req));
      }
      done := None;
    }
  }

  /** The targets among the rows from `i` on, with `n` attempts left. */
  function Remaining(plan: FailoverPlan.Table, i: nat, tried: set<string>, n: nat): FailoverPlan.Table
    requires i <= |plan|
  {
    Take(FirstOfEachProvider(plan[i..], tried), n)
  }

  lemma {:induction false} NextTarget(plan: FailoverPlan.Table, i: nat, tried: set<string>, n: nat)
    requires i < |plan| && n > 0
    ensures
      var here, p := Remaining(plan, i, tried, n), plan[i].provider;
      if p in tried then here == Remaining(plan, i + 1, tried, n)
      else here != [] && here[0] == plan[i] && here[1..] == Remaining(plan, i + 1, tried + {p}, n - 1)
  {
    assert plan[i..][1..] == plan[i + 1..];
  }
}
