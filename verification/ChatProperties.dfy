/** What every request satisfies, whatever the ports, providers and contexts do. */
module ChatProperties {
  import opened Wrappers
  import opened Domain
  import opened Chat
  import RateLimits
  import Slots
  import Usage
  import FailoverPlan
  import PlanProperties

  // ---- who is contacted ----

  lemma {:induction false} FirstOfEachIsFresh(plan: FailoverPlan.Table, tried: set<string>)
    ensures forall k :: 0 <= k < |FirstOfEachProvider(plan, tried)| ==> FirstOfEachProvider(plan, tried)[k].provider !in tried
    ensures FirstOfEachProvider(plan, tried) == [] <==> forall k :: 0 <= k < |plan| ==> plan[k].provider in tried
  {
    if plan != [] {
      var p := plan[0].provider;
      if p in tried {
        FirstOfEachIsFresh(plan[1..], tried);
        assert forall k :: 1 <= k < |plan| ==> plan[k] == plan[1..][k - 1];
        assert (forall k :: 0 <= k < |plan[1..]| ==> plan[1..][k].provider in tried) ==>
          forall k :: 0 <= k < |plan| ==> plan[k].provider in tried;
      } else {
        FirstOfEachIsFresh(plan[1..], tried + {p});
      }
    }
  }

  /** The next target is the first plan entry whose provider is not yet tried. */
  lemma {:induction false} NextIsFirstUntried(plan: FailoverPlan.Table, tried: set<string>) returns (k: nat)
    requires FirstOfEachProvider(plan, tried) != []
    ensures k < |plan| && FirstOfEachProvider(plan, tried)[0] == plan[k] && plan[k].provider !in tried
    ensures forall j :: 0 <= j < k ==> plan[j].provider in tried
    ensures FirstOfEachProvider(plan, tried)[1..] == FirstOfEachProvider(plan[k + 1..], tried + {plan[k].provider})
  {
    if plan[0].provider in tried {
      k := NextIsFirstUntried(plan[1..], tried);
      assert plan[1..][k + 1..] == plan[k + 2..];
      k := k + 1;
    } else {
      k := 0;
    }
  }

  /** The first plan entry, then the first entry of another provider, if there is one. */
  lemma {:induction false} TargetsAreFirstTwoProviders(plan: FailoverPlan.Table)
    ensures
      var t := Targets(plan);
      && |t| <= 2
      && (t == [] <==> plan == [])
      && (t != [] ==> t[0] == plan[0])
      && (|t| == 2 ==>
            exists k :: 0 < k < |plan| && t[1] == plan[k] && plan[k].provider != plan[0].provider
              && forall j :: 0 <= j < k ==> plan[j].provider == plan[0].provider)
      && (|t| == 1 ==> forall j :: 0 <= j < |plan| ==> plan[j].provider == plan[0].provider)
  {
    if plan != [] {
      var p, rest := plan[0].provider, plan[1..];
      var others := FirstOfEachProvider(rest, {} + {p});
      assert FirstOfEachProvider(plan, {}) == [plan[0]] + others;
      FirstOfEachIsFresh(rest, {} + {p});
      assert forall j :: 1 <= j < |plan| ==> plan[j] == rest[j - 1];
      if others != [] {
        var k := NextIsFirstUntried(rest, {} + {p});
        assert Targets(plan)[1] == plan[k + 1];
      }
    }
  }

  /** A success, a vanished caller or a spent deadline ends the request. */
  predicate Ends(a: Attempt) {
    a.outcome.Ok? || a.callerGone || a.deadlinePassed
  }

  /** Contacts follow the targets and stop at the first attempt that ends the request. */
  lemma {:induction false} ContactsAreCutTargets(
    app: string, req: ChatRequest, targets: FailoverPlan.Table, tries: nat, script: nat -> Attempt, exhausted: Outcome)
    requires exhausted.contacted == []
    ensures
      var contacted := Attempts(app, req, targets, tries, script, exhausted).contacted;
      && contacted <= targets
      && (forall i: nat :: tries <= i < tries + |contacted| - 1 ==> !Ends(script(i)))
      && (|contacted| < |targets| ==> contacted != [] && Ends(script(tries + |contacted| - 1)))
    decreases |targets|
  {
    if targets != [] && !Ends(script(tries)) {
      var rest := targets[1..];
      ContactsAreCutTargets(app, req, rest, tries + 1, script, exhausted);
      var more := Attempts(app, req, rest, tries + 1, script, exhausted).contacted;
      var contacted := Attempts(app, req, targets, tries, script, exhausted).contacted;
      assert contacted == [targets[0]] + more;
      assert targets == [targets[0]] + rest;
    }
  }

  // ---- one terminal fact ----

  function Terminals(events: seq<Usage.Event>): nat {
    if events == [] then 0 else (if Usage.Terminal(events[0]) then 1 else 0) + Terminals(events[1..])
  }

  predicate AllAbout(events: seq<Usage.Event>, app: string) {
    forall i :: 0 <= i < |events| ==> events[i].app == app
  }

  lemma {:induction false} TerminalsAfter(facts: seq<Usage.Event>, events: seq<Usage.Event>)
    requires |facts| <= 1
    ensures Terminals(facts + events) == Terminals(facts) + Terminals(events)
  {
    if facts == [] {
      assert facts + events == events;
    } else {
      assert (facts + events)[1..] == events && facts[1..] == [];
    }
  }

  /** The settled cost is what the completion recorded, and nothing else settles. */
  predicate SettlesWhatItRecords(o: Outcome) {
    match o.settled
    case None => o.answer.Err? && forall i :: 0 <= i < |o.events| ==> !o.events[i].Completed?
    case Some(cost) =>
      && o.answer.Ok? && o.events != []
      && var last := o.events[|o.events| - 1];
         last.Completed? && cost == last.usage.prompt + last.usage.completion && last.usage == o.answer.value.usage
  }

  /** The last fact is the answer's: the completion served, the refusal's own code, or the caller gone. */
  predicate RecordsItsAnswer(o: Outcome, app: string) {
    && o.events != []
    && var last := o.events[|o.events| - 1];
    match o.answer
    case Ok(res) => last.Completed? && last.mp.model == res.model && last.mp.provider == res.provider && last.usage == res.usage
    case Err(Refused(e)) => last == Usage.Rejected(app, e.code)
    case Err(CallerDisconnected) => last.Disconnected?
  }

  predicate Accounted(o: Outcome, app: string) {
    Terminals(o.events) == 1 && AllAbout(o.events, app) && SettlesWhatItRecords(o) && RecordsItsAnswer(o, app)
  }

  lemma {:induction false} AccountedAfter(facts: seq<Usage.Event>, contacted: FailoverPlan.Table, o: Outcome, app: string)
    requires Accounted(o, app) && AllAbout(facts, app) && |facts| <= 1
    requires facts != [] ==> !Usage.Terminal(facts[0])
    ensures Accounted(After(facts, contacted, o), app)
  {
    TerminalsAfter(facts, o.events);
    if facts != [] {
      assert facts[1..] == [];
    }
  }

  lemma {:induction false} AttemptsAccounted(
    app: string, req: ChatRequest, targets: FailoverPlan.Table, tries: nat, script: nat -> Attempt, exhausted: Outcome)
    requires Accounted(exhausted, app)
    ensures Accounted(Attempts(app, req, targets, tries, script, exhausted), app)
    decreases |targets|
  {
    if targets != [] {
      match OneTry(app, req, targets[0], tries, script(tries))
      case Final(o) =>
        assert o.events[1..] == [];
      case Next(facts) =>
        AttemptsAccounted(app, req, targets[1..], tries + 1, script, exhausted);
        AccountedAfter(facts, [targets[0]], Attempts(app, req, targets[1..], tries + 1, script, exhausted), app);
    }
  }

  lemma {:induction false} RejectAccounted(app: string, code: ErrorCode, answer: Answer)
    requires answer.Err? && answer.error.Refused? && answer.error.error.code == code
    ensures Accounted(Reject(app, code, answer), app)
  {
    assert [Usage.Rejected(app, code)][1..] == [];
  }

  lemma {:induction false} AdmittedAccounted(
    app: App, req: ChatRequest, table: FailoverPlan.Table, order: seq<string>, script: nat -> Attempt)
    ensures Accounted(Admitted(app, req, table, order, script), app.name)
  {
    var plan := FailoverPlan.Plan(req.model, app.policy, table, order);
    RejectAccounted(app.name, ModelUnavailable, Unserved(req.model));
    RejectAccounted(app.name, UpstreamFailed, Plain(UpstreamFailed));
    AttemptsAccounted(app.name, req, Targets(plan), 0, script,
                      Exhausted(app.name, req, |Targets(plan)|, multiset(plan) != multiset(table)));
  }

  lemma {:induction false} GateAccounted(app: string, v: RateLimits.Verdict, next: Outcome)
    requires Accounted(next, app)
    ensures Accounted(Gate(app, v, next), app)
  {
    if Refuses(v) {
      RejectAccounted(app, QuotaExceeded, OverQuota(v.value.retryAfter, v.value.quota));
    } else {
      AccountedAfter(FailOpen(app, v), [], next, app);
    }
  }

  /** A request resolved to an app ends in exactly one completion, rejection or disconnect, and settles exactly what it recorded. */
  lemma {:induction false} OneTerminalFact(
    app: App, req: ChatRequest, allow: RateLimits.Verdict, check: RateLimits.Verdict, slot: Slots.Answer,
    table: FailoverPlan.Table, order: seq<string>, script: nat -> Attempt)
    ensures Accounted(Respond(Some(app), req, allow, check, slot, table, order, script), app.name)
  {
    RejectAccounted(app.name, InvalidRequest, Plain(InvalidRequest));
    AdmittedAccounted(app, req, table, order, script);
    if slot.Refused? {
      RejectAccounted(app.name, ConcurrencyCeiling, AtCeiling(slot.ceiling));
    }
    var claiming := Claiming(app, req, slot, table, order, script);
    GateAccounted(app.name, check, claiming);
    GateAccounted(app.name, allow, Gate(app.name, check, claiming));
  }

  /** No provider hears of a request that a quota or a ceiling refused. */
  lemma {:induction false} OnlyAdmittedReachProviders(
    app: App, req: ChatRequest, allow: RateLimits.Verdict, check: RateLimits.Verdict, slot: Slots.Answer,
    table: FailoverPlan.Table, order: seq<string>, script: nat -> Attempt)
    ensures Respond(Some(app), req, allow, check, slot, table, order, script).contacted != [] <==>
      ValidRequest(req) && !Refuses(allow) && !Refuses(check) && slot.Granted?
      && FailoverPlan.RowsOf(table, req.model) != []
  {
    var plan := FailoverPlan.Plan(req.model, app.policy, table, order);
    TargetsAreFirstTwoProviders(plan);
    PlanProperties.RequestedComesFirst(req.model, app.policy, table, order);
    if plan != [] {
      FirstTargetIsContacted(app.name, req, Targets(plan), 0, script,
                             Exhausted(app.name, req, |Targets(plan)|, multiset(plan) != multiset(table)));
    }
  }

  lemma {:induction false} FirstTargetIsContacted(
    app: string, req: ChatRequest, targets: FailoverPlan.Table, tries: nat, script: nat -> Attempt, exhausted: Outcome)
    requires targets != []
    ensures Attempts(app, req, targets, tries, script, exhausted).contacted != []
  {
  }

  lemma {:induction false} AllFailed(
    app: string, req: ChatRequest, targets: FailoverPlan.Table, tries: nat, script: nat -> Attempt, exhausted: Outcome)
    requires forall i: nat :: tries <= i < tries + |targets| ==> !Ends(script(i))
    ensures Attempts(app, req, targets, tries, script, exhausted).answer == exhausted.answer
    decreases |targets|
  {
    if targets != [] {
      AllFailed(app, req, targets[1..], tries + 1, script, exhausted);
    }
  }

  /** Nothing stops the request before its slot. */
  predicate Admits(req: ChatRequest, allow: RateLimits.Verdict, check: RateLimits.Verdict, slot: Slots.Answer) {
    ValidRequest(req) && !Refuses(allow) && !Refuses(check) && slot.Granted?
  }

  /** A request answers and contacts as one holding its slot, or is refused and contacts nobody. */
  lemma {:induction false} RespondOrAdmitted(
    app: App, req: ChatRequest, allow: RateLimits.Verdict, check: RateLimits.Verdict, slot: Slots.Answer,
    table: FailoverPlan.Table, order: seq<string>, script: nat -> Attempt)
    ensures
      var o, held := Respond(Some(app), req, allow, check, slot, table, order, script), Admitted(app, req, table, order, script);
      if Admits(req, allow, check, slot) then o.answer == held.answer && o.contacted == held.contacted
      else o.answer.Err? && o.contacted == []
  {
  }

  lemma {:induction false} UncutTargets(
    app: string, req: ChatRequest, targets: FailoverPlan.Table, script: nat -> Attempt, exhausted: Outcome, contacted: FailoverPlan.Table)
    requires exhausted.contacted == [] && contacted == Attempts(app, req, targets, 0, script, exhausted).contacted
    requires contacted != [] && !Ends(script(|contacted| - 1))
    ensures contacted == targets && forall i: nat :: i < |targets| ==> !Ends(script(i))
  {
    ContactsAreCutTargets(app, req, targets, 0, script, exhausted);
    assert contacted <= targets && |contacted| >= |targets|;
  }

  /** If the last contact of a request holding its slot neither served nor ended it, every target was contacted and failed. */
  lemma {:induction false} EveryTargetFailed(app: App, req: ChatRequest, table: FailoverPlan.Table, order: seq<string>, script: nat -> Attempt)
    requires
      var contacted := Admitted(app, req, table, order, script).contacted;
      contacted != [] && !Ends(script(|contacted| - 1))
    ensures
      var targets := Targets(FailoverPlan.Plan(req.model, app.policy, table, order));
      && Admitted(app, req, table, order, script).contacted == targets
      && forall i: nat :: i < |targets| ==> !Ends(script(i))
  {
    var plan := FailoverPlan.Plan(req.model, app.policy, table, order);
    UncutTargets(app.name, req, Targets(plan), script,
                 Exhausted(app.name, req, |Targets(plan)|, multiset(plan) != multiset(table)),
                 Admitted(app, req, table, order, script).contacted);
  }

  /** How a request whose last contact neither served nor ended it is answered: the policy is blamed for leaving one provider of a larger table. */
  lemma {:induction false} ExhaustedAnswer(
    app: App, req: ChatRequest, allow: RateLimits.Verdict, check: RateLimits.Verdict, slot: Slots.Answer,
    table: FailoverPlan.Table, order: seq<string>, script: nat -> Attempt)
    requires Admits(req, allow, check, slot)
    requires
      var contacted := Admitted(app, req, table, order, script).contacted;
      contacted != [] && !Ends(script(|contacted| - 1))
    ensures
      Respond(Some(app), req, allow, check, slot, table, order, script).answer
        == Err(Refused(
             if |Admitted(app, req, table, order, script).contacted| == 1 && !PlanProperties.AllPermitted(app.policy, req.model, table)
             then Error(ModelUnavailable, 0, None, 0, req.model) else Error(UpstreamFailed, 0, None, 0, "")))
  {
    EveryTargetFailed(app, req, table, order, script);
    ExhaustionBlamesPolicyIff(app, req, allow, check, slot, table, order, script);
  }

  /**
   * When every attempt made fails, the app's policy is blamed exactly when one provider was
   * all it left and it shuts out some row of the table; otherwise the gateway is.
   */
  lemma {:induction false} ExhaustionBlamesPolicyIff(
    app: App, req: ChatRequest, allow: RateLimits.Verdict, check: RateLimits.Verdict, slot: Slots.Answer,
    table: FailoverPlan.Table, order: seq<string>, script: nat -> Attempt)
    requires Admits(req, allow, check, slot)
    requires forall i: nat :: i < |Targets(FailoverPlan.Plan(req.model, app.policy, table, order))| ==> !Ends(script(i))
    ensures
      var t := Targets(FailoverPlan.Plan(req.model, app.policy, table, order));
      var policyIsToBlame := t == [] || (|t| == 1 && !PlanProperties.AllPermitted(app.policy, req.model, table));
      Respond(Some(app), req, allow, check, slot, table, order, script).answer
        == Err(Refused(if policyIsToBlame then Error(ModelUnavailable, 0, None, 0, req.model) else Error(UpstreamFailed, 0, None, 0, "")))
  {
    RespondOrAdmitted(app, req, allow, check, slot, table, order, script);
    AdmittedBlames(app, req, table, order, script);
  }

  lemma {:induction false} AdmittedBlames(
    app: App, req: ChatRequest, table: FailoverPlan.Table, order: seq<string>, script: nat -> Attempt)
    requires forall i: nat :: i < |Targets(FailoverPlan.Plan(req.model, app.policy, table, order))| ==> !Ends(script(i))
    ensures
      var t := Targets(FailoverPlan.Plan(req.model, app.policy, table, order));
      var policyIsToBlame := t == [] || (|t| == 1 && !PlanProperties.AllPermitted(app.policy, req.model, table));
      Admitted(app, req, table, order, script).answer == Err(Refused(if policyIsToBlame then Error(ModelUnavailable, 0, None, 0, req.model) else Error(UpstreamFailed, 0, None, 0, "")))
  {
    var plan := FailoverPlan.Plan(req.model, app.policy, table, order);
    TargetsAreFirstTwoProviders(plan);
    if plan != [] {
      PlanProperties.ConstrainedIff(req.model, app.policy, table, order);
      AllFailed(app.name, req, Targets(plan), 0, script,
                Exhausted(app.name, req, |Targets(plan)|, multiset(plan) != multiset(table)));
    }
  }

  /** A limiter that is down never changes an answer: it is as if it had admitted, with the degradation on record. */
  lemma {:induction false} ErrorNeverRefuses(
    app: App, req: ChatRequest, allow: RateLimits.Verdict, check: RateLimits.Verdict, slot: Slots.Answer,
    table: FailoverPlan.Table, order: seq<string>, script: nat -> Attempt)
    ensures
      var open := (v: RateLimits.Verdict) => if v.Err? then Ok(Admit) else v;
      var o, o' := Respond(Some(app), req, allow, check, slot, table, order, script),
                   Respond(Some(app), req, open(allow), open(check), slot, table, order, script);
      && o.answer == o'.answer && o.contacted == o'.contacted && o.settled == o'.settled
      && (ValidRequest(req) && allow.Err? ==> o.events != [] && o.events[0] == Usage.FailedOpen(app.name))
  {
  }

  // ---- fidelity ----

  lemma {:induction false} LastContactServes(
    app: string, req: ChatRequest, targets: FailoverPlan.Table, tries: nat, script: nat -> Attempt, exhausted: Outcome)
    requires exhausted.answer.Err?
    ensures ServedByLast(Attempts(app, req, targets, tries, script, exhausted), req)
    decreases |targets|
  {
    if targets != [] && !Ends(script(tries)) {
      LastContactServes(app, req, targets[1..], tries + 1, script, exhausted);
    }
  }

  lemma {:induction false} TargetsArePermitted(app: App, req: ChatRequest, table: FailoverPlan.Table, order: seq<string>, k: nat)
    requires k < |Targets(FailoverPlan.Plan(req.model, app.policy, table, order))|
    ensures
      var target := Targets(FailoverPlan.Plan(req.model, app.policy, table, order))[k];
      target in table && PlanProperties.Permits(app.policy, req.model, target.model)
  {
    var plan := FailoverPlan.Plan(req.model, app.policy, table, order);
    TargetsAreFirstTwoProviders(plan);
    assert Targets(plan)[k] in plan;
    PlanProperties.PlanRows(req.model, app.policy, table, order, Targets(plan)[k]);
  }

  predicate FollowsPolicy(
    contacted: FailoverPlan.Table, policy: FailoverPolicy, requested: string, table: FailoverPlan.Table, firstEnds: bool)
  {
    && |contacted| <= 2
    && (contacted != [] ==> contacted[0].model == requested)
    && (forall k :: 0 <= k < |contacted| ==>
          contacted[k] in table && PlanProperties.Permits(policy, requested, contacted[k].model))
    && (|contacted| == 2 ==> contacted[0].provider != contacted[1].provider && !firstEnds)
  }

  /** The requested model is contacted first, then at most one permitted row of another provider, after a failure. */
  lemma {:induction false} ContactsFollowPolicy(
    app: App, req: ChatRequest, allow: RateLimits.Verdict, check: RateLimits.Verdict, slot: Slots.Answer,
    table: FailoverPlan.Table, order: seq<string>, script: nat -> Attempt)
    ensures FollowsPolicy(Respond(Some(app), req, allow, check, slot, table, order, script).contacted,
                          app.policy, req.model, table, Ends(script(0)))
  {
    RespondOrAdmitted(app, req, allow, check, slot, table, order, script);
    AdmittedFollowsPolicy(app, req, table, order, script);
  }

  lemma {:induction false} AdmittedFollowsPolicy(app: App, req: ChatRequest, table: FailoverPlan.Table, order: seq<string>, script: nat -> Attempt)
    ensures FollowsPolicy(Admitted(app, req, table, order, script).contacted, app.policy, req.model, table, Ends(script(0)))
  {
    var plan := FailoverPlan.Plan(req.model, app.policy, table, order);
    if plan != [] {
      var t := Targets(plan);
      var last := Exhausted(app.name, req, |t|, multiset(plan) != multiset(table));
      PlanProperties.RequestedComesFirst(req.model, app.policy, table, order);
      assert plan[0].model == req.model;
      TargetsAreFirstTwoProviders(plan);
      ContactsAreCutTargets(app.name, req, t, 0, script, last);
      var contacted := Attempts(app.name, req, t, 0, script, last).contacted;
      forall k | 0 <= k < |contacted|
        ensures contacted[k] in table && PlanProperties.Permits(app.policy, req.model, contacted[k].model)
      {
        TargetsArePermitted(app, req, table, order, k);
      }
    }
  }

  /** The answer names what served; a substitution is disclosed exactly when it happened, and only after a failed attempt. */
  lemma {:induction false} PolicyFidelity(
    app: App, req: ChatRequest, allow: RateLimits.Verdict, check: RateLimits.Verdict, slot: Slots.Answer,
    table: FailoverPlan.Table, order: seq<string>, script: nat -> Attempt)
    ensures Faithful(Respond(Some(app), req, allow, check, slot, table, order, script), app.policy, req.model, Ends(script(0)))
  {
    var held := Admitted(app, req, table, order, script);
    RespondOrAdmitted(app, req, allow, check, slot, table, order, script);
    AdmittedFollowsPolicy(app, req, table, order, script);
    AdmittedServesLast(app, req, table, order, script);
    FaithfulIfServedByLast(held, app.policy, req, table, Ends(script(0)));
    assert Faithful(held, app.policy, req.model, Ends(script(0)));
  }

  predicate Faithful(o: Outcome, policy: FailoverPolicy, requested: string, firstEnds: bool) {
    o.answer.Ok? ==>
      && o.contacted != []
      && var mp, res := o.contacted[|o.contacted| - 1], o.answer.value;
      && res.model == mp.model && res.provider == mp.provider
      && PlanProperties.Permits(policy, requested, res.model)
      && (res.substituted <==> res.model != requested)
      && (res.substituted ==> |o.contacted| == 2 && !firstEnds)
  }

  lemma {:induction false} FaithfulIfServedByLast(
    o: Outcome, policy: FailoverPolicy, req: ChatRequest, table: FailoverPlan.Table, firstEnds: bool)
    requires FollowsPolicy(o.contacted, policy, req.model, table, firstEnds) && ServedByLast(o, req)
    ensures Faithful(o, policy, req.model, firstEnds)
  {
  }

  predicate ServedByLast(o: Outcome, req: ChatRequest) {
    o.answer.Ok? ==>
      && o.contacted != []
      && var mp := o.contacted[|o.contacted| - 1];
         o.answer.value.model == mp.model && o.answer.value.provider == mp.provider
         && o.answer.value.substituted == (mp.model != req.model)
  }

  lemma {:induction false} AdmittedServesLast(app: App, req: ChatRequest, table: FailoverPlan.Table, order: seq<string>, script: nat -> Attempt)
    ensures ServedByLast(Admitted(app, req, table, order, script), req)
  {
    var plan := FailoverPlan.Plan(req.model, app.policy, table, order);
    LastContactServes(app.name, req, Targets(plan), 0, script,
                      Exhausted(app.name, req, |Targets(plan)|, multiset(plan) != multiset(table)));
  }

  /** Under same-model, and under any kind the gateway does not know, only the requested model ever serves. */
  lemma {:induction false} SameModelNeverSubstitutes(
    app: App, req: ChatRequest, allow: RateLimits.Verdict, check: RateLimits.Verdict, slot: Slots.Answer,
    table: FailoverPlan.Table, order: seq<string>, script: nat -> Attempt)
    requires app.policy.kind != AnyModel && app.policy.kind != Allowlist
    ensures
      var o := Respond(Some(app), req, allow, check, slot, table, order, script);
      o.answer.Ok? ==> o.answer.value.model == req.model && !o.answer.value.substituted
  {
    PolicyFidelity(app, req, allow, check, slot, table, order, script);
  }
}
