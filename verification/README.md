# LLM gateway: a verified model

A Dafny model of the gateway's request path and of the state it shares between
requests and replicas, with proofs of what the code is for. `dafny verify
dfyconfig.toml` checks everything; each file names the component it models.

The model has two levels.

**One request.** `Chat.dfy` writes `Service.Chat` as methods over class models of its
ports: the two rate limiters over one store (`RateLimits.dfy`, `QuotaStore.dfy`), the
slot limiter and its release closure (`Slots.dfy`), the usage recorder (`Usage.dfy`) and
an adversarial provider. What a provider answers, whether the caller is gone, whether the
total deadline has passed and whether each store call gets through are inputs. The method
is proved equal to a small specification (`Respond`) in its answer, the facts it records,
the providers it contacts, the store it leaves and the slots it returns;
`ChatProperties`, `ChatAnswers`, `PlanProperties`, `PlanOrder` and `QuotaWindows` prove what
that specification promises, in terms of the configuration, the providers' outcomes, seconds
and minutes.

**Many requests.** `Fleet.dfy` is a transition system: any number of requests on any
number of replicas, interleaved at every port call, one shared store, one slot limiter
per replica, clock ticks and key expiry. `FleetSlots`, `FleetBudget`, `FleetCeilings`,
`FleetOvershoot` and `FleetAccounts` prove safety over all its runs, and `ChatOnFleet`
proves that one call of `Chat` is a run of it. The store is related to a ledger that
never forgets (module `Ledger`).

Beside them stand the RESP codec and connection pool (`Resp.dfy`, `RespClient.dfy`), the
provider key cache (`ProviderKeys.dfy`, `KeyRuns.dfy`), the Ollama and Anthropic request
dialects with the public wire form (`OpenApi.dfy`, `OllamaDialect.dfy`,
`AnthropicDialect.dfy`), the configuration validator and what it lets happen
(`ConfigFile.dfy`, `ConfigRuntime.dfy`) and the answering side of the HTTP handler
(`Handler.dfy`).

Conventions: time is a `nat` of nanoseconds shared by gateway and store; each Redis script
is one atomic step. A call on the store has two times (`Windows.Moment`): what the gateway's
clock said when it picked the counter's key, and when the script ran. A window may end in
between, so checks, debits and counts may come late; a script is taken to run no later than
a second after the window of its stamp has ended, which is what a counter's extra second of
lifetime allows for. A request reads the clock for its check after it was counted, and for
its settlement after its provider answered. Bytes are characters below 256; maps walked by
the code are walked in an arbitrary order given as an argument; a `Link` says whether a
store call got through, lost its request or lost its reply.

## Where the code and its prose disagree

The model follows the code. Four statements in comments or documents turn out false of it,
and each is settled by an exact condition:

- Token overshoot "is bounded by the app's slot ceiling" (internal/gateway/llm_gateway.go:52-55,
  and the estimate at docs/ADRs/ADR-003-token-budget-limiting.md:199). Requests between the
  token check and the slot claim hold no slot, and a check stamped in one window may run in the
  next. `FleetOvershoot.OvershootIsExact` gives the least bound for every configuration:
  budget - 1 + (width + lates) * cost, for runs with at most `width` requests unsettled when one
  settles and `lates` late checks. `FleetOvershoot.CeilingIsExact` gives it in terms of slots:
  every replica's slots, plus the requests between check and claim, plus the late checks.
  `FleetOvershoot.EstimateHoldsIff` concludes that the documented estimate, taken once per
  replica, holds exactly when there are none of either, and `FleetOvershoot.NoCeilingContains`
  that no ceiling contains anything otherwise. All of them hold whether or not counts and debits
  fail and whatever the request quota: the runs that reach the bounds count their requests a
  second apart, and only then let them be checked.
- Providers absent from the failover order "go last" (internal/gateway/fallback_logic_build.go:86)
  in the plan of every served model exactly when the order repeats no provider:
  `PlanProperties.UnlistedLastIffNoDuplicates`.
- "A call always precedes its result" (internal/ollama/ollama_req.go:73-77) is not enforced, and
  minted ids repeat every turn: `OllamaDialect.MisnamedIff` says which later turn makes a result go
  out under the wrong name, `OllamaDialect.LateResultIsMisnamed` and
  `OllamaDialect.ResultBeforeItsCallIsNameless` show both failures.
- "No app can crowd out another on the pod they share" (internal/slots/limiter.go:12-13) depends on
  the configuration, which the validator does not check for it: `SlotSharing.IsolationIsExact`
  proves it holds for all runs exactly when there is no global cap or every app has a ceiling and
  the ceilings fit under the cap.

## Model

| member | source | states |
|---|---|---|
| Chat.Service.Chat | internal/gateway/llm_gateway.go:202-338 | the answer, the recorded facts and the providers contacted are those of `Respond` on the ports' verdicts, each read at its own stamp; the store has one count and at most one settlement more; the slots are as before on every path |
| Chat.Service.CountRequest | internal/gateway/llm_gateway.go:213-229 | a refusal stops the request with its retry hint; an error or an admission goes on, the request counted first |
| Chat.Service.CheckTokens | internal/gateway/llm_gateway.go:231-246 | the token verdict read from the store as the count left it, then as above |
| Chat.Service.ClaimSlot | internal/gateway/llm_gateway.go:248-259 | a refused claim names the ceiling; a granted one is given back whatever follows |
| Chat.Service.Admit | internal/gateway/llm_gateway.go:261-265 | an empty plan is model-unavailable, otherwise the attempts decide |
| Chat.Service.TryEach | internal/gateway/llm_gateway.go:275-337 | the loop over the plan with its tried map equals attempting the first two targets of different providers, and its exhaustion the right error |
| Chat.Service.TryTarget | internal/gateway/llm_gateway.go:277-324 | the first target left ends the request as the whole specification says, or leaves answer and effect to the rest |
| Chat.Service.TryOne | internal/gateway/llm_gateway.go:284-322 | one attempt ends the request or leaves exactly its facts and one more contact |
| Chat.Service.RecordServed | internal/gateway/llm_gateway.go:289-291 | a served completion is recorded with its latency and its prompt plus completion tokens are debited at the settle time |
| Chat.Service.RecordFailure | internal/gateway/llm_gateway.go:303-321 | caller gone, deadline gone, or a double-spend risk recorded exactly when the failure may be billed |
| Chat.Service.FailureContinues | internal/gateway/llm_gateway.go:322-324 | after a failed attempt, the targets left give the whole outcome's answer and effect |
| Chat.Service.GiveUp | internal/gateway/llm_gateway.go:326-337 | policy exhaustion and gateway failure told apart |
| ChatProperties.TargetsAreFirstTwoProviders | internal/gateway/llm_gateway.go:275-285 | the targets are the plan's first row and the first later row of another provider, if any |
| ChatProperties.ContactsAreCutTargets | internal/gateway/llm_gateway.go:277-324 | contacts are a prefix of the targets, cut exactly at the first success, caller cancellation or exhausted deadline |
| ChatProperties.RespondOrAdmitted | internal/gateway/llm_gateway.go:208-265 | a request answers and contacts as one holding its slot, or is refused and contacts nobody |
| ChatProperties.ContactsFollowPolicy | internal/gateway/llm_gateway.go:261-300 | whatever the verdicts: at most two contacts, the first of the requested model, all permitted rows of the table, never one provider twice |
| ChatProperties.PolicyFidelity | internal/gateway/llm_gateway.go:289-300 | what served is what the last contact offered and is permitted; substituted exactly when the model differs, then after one failed attempt |
| ChatProperties.SameModelNeverSubstitutes | internal/gateway/fallback_logic_build.go:66-79 | under same-model and any unknown policy only the requested model serves |
| ChatProperties.OneTerminalFact | internal/gateway/llm_gateway.go:202-338 | every request of a known app leaves exactly one completion, rejection or disconnect, it is the last fact and the answer's own, and exactly what a completion records is settled |
| ChatProperties.OnlyAdmittedReachProviders | internal/gateway/llm_gateway.go:208-265 | a provider is contacted if and only if the request is valid, no quota refuses it, a slot is granted and some route serves its model |
| ChatProperties.ExhaustionBlamesPolicyIff | internal/gateway/llm_gateway.go:326-337 | when every attempt made fails, 503 exactly when one provider was all the policy left and it shuts out some row, else 502 |
| ChatProperties.ErrorNeverRefuses | internal/gateway/llm_gateway.go:213-246 | replacing every limiter error by an admission changes neither answer, contacts nor cost |
| ChatProperties.ExhaustedAnswer | internal/gateway/llm_gateway.go:275-337 | when the last contact neither served nor ended the request, every target had been contacted; the policy is blamed exactly when that was one provider and some row is not permitted |
| ChatAnswers.ServedIsWhatTheProviderGave | internal/gateway/llm_gateway.go:289-300 | a caller gets a completion exactly when the last contact gave one, and then its message, finish reason and usage; that same usage is recorded and settled |
| ChatAnswers.AnswerIsTheLastAttempts | internal/gateway/llm_gateway.go:277-337 | the answer, the settled cost and every fact recorded are told by the attempts: each limiter that was down, each lost attempt that may be billed with its estimate, then what the last attempt came to |
| ChatAnswers.RefusalNamesItsCause | internal/gateway/llm_gateway.go:208-265 | a request no provider heard of is refused for the first reason that applies, with exactly that reason's details, and recorded under its code |
| ChatAnswers.UnknownCallerLeavesNoTrace | internal/gateway/llm_gateway.go:202-206 | an unknown key is unauthorized, with nothing recorded, contacted or settled |
| ChatAnswers.ContactsAreThePlans | internal/gateway/llm_gateway.go:275-285 | the contacts are the plan's first row and, only after a failure that did not end the request, its first row of another provider |
| FailoverPlan.BuildPlan | internal/gateway/fallback_logic_build.go:25-79 | the plan, and `constrained` exactly when some row of the table is left out; the table array is only read |
| FailoverPlan.SortByRank | internal/gateway/fallback_logic_build.go:41-50 | the in-place stable sort by last-position rank |
| FailoverPlan.AppendAllowed | internal/gateway/fallback_logic_build.go:52-64 | the nested preference loops equal one stable sort of the allowed rows by first preference |
| PlanProperties.PlanIsSubMultiset | internal/gateway/fallback_logic_build.go:25-79 | no row invented or used twice |
| PlanProperties.RequestedComesFirst | internal/gateway/fallback_logic_build.go:25-40 | the requested model's rows first, in table order; without one, no plan |
| PlanProperties.AnyUsesWholeTable | internal/gateway/fallback_logic_build.go:41-50 | under any, a served model's plan is a permutation of the table |
| PlanProperties.PlanRows | internal/gateway/fallback_logic_build.go:25-79 | a row is planned exactly when the requested model is served and the policy permits the row's model |
| PlanProperties.ConstrainedIff | internal/gateway/fallback_logic_build.go:21-36 | a served model's plan leaves something out exactly when the policy forbids some row's model |
| PlanProperties.AnyTailIsStablySorted | internal/gateway/fallback_logic_build.go:41-50 | the tail is sorted by rank and keeps table order among ties |
| PlanProperties.AllowlistTailFollowsPreference | internal/gateway/fallback_logic_build.go:52-64 | the tail follows first preferences, each model's rows complete and in table order |
| PlanProperties.UnlistedLastIffNoDuplicates | internal/gateway/fallback_logic_build.go:81-87 | in the plan of every served model, for every table, unlisted providers follow all listed ones after the model's own rows, exactly when the order repeats none |
| PlanOrder.RequestedRowsLead | internal/gateway/fallback_logic_build.go:25-40 | a plan starts with the table's rows of the requested model in table order and goes on with other models only |
| PlanOrder.ListedInOrder | internal/gateway/fallback_logic_build.go:41-50 | under any, listed providers follow in the order listed, a repeated one where it stands last, and each provider's rows keep table order |
| PlanOrder.UnlistedByTheCount | internal/gateway/fallback_logic_build.go:81-87 | where unlisted providers stand when names repeat, by positions alone, and that they keep table order |
| PlanOrder.PreferredInOrder | internal/gateway/fallback_logic_build.go:52-64 | under an allowlist, models follow in the order first named, each with all its rows in table order and no others |
| PlanOrder.OtherwiseNoSubstitutes | internal/gateway/fallback_logic_build.go:75-79 | under same-model and any unknown kind the plan is the requested model's rows |
| Sorting.SortInPlace | internal/gateway/fallback_logic_build.go:46-49 | stable sort of an array |
| Sorting.StableSortIsUnique | internal/gateway/fallback_logic_build.go:46-49 | order and stability leave only one result |
| Sorting.FirstDifferenceDecides | internal/config/config.go:382-387 | names are in lexicographic order: the first difference decides, a prefix comes first |
| Slots.Limiter.TryAcquire | internal/slots/limiter.go:54-86 | grants exactly when neither bound is met, names the bound that refused (the app's own first), and hands out an unused release |
| Slots.Grant.Call | internal/slots/limiter.go:72-85 | returns the slot the first time and nothing ever after |
| Slots.ClaimKeepsSound | internal/slots/limiter.go:54-66 | a grant keeps every ceiling, the cap, the sum and the absence of zero entries |
| Slots.ReleaseKeepsSound | internal/slots/limiter.go:76-83 | so does a release, which lowers exactly its own app |
| Slots.ReleaseUndoesClaim | internal/slots/limiter.go:65-83 | claim then release restores the state, map entries included |
| SlotRuns.RunConserves | internal/slots/limiter.go:54-86 | over any acquires and repeated releases, each count is the app's unreleased grants and the total their sum, within every limit |
| SlotRuns.AllReleasedIsEmpty | internal/slots/limiter.go:76-83 | all grants released means the initial state |
| SlotRuns.Isolation | internal/slots/limiter.go:58-63 | under a partitioned configuration an app's answers in any interleaving are those of its own operations alone |
| SlotSharing.IsolationIsExact | internal/slots/limiter.go:58-63 | with two apps or more, isolation holds over all runs if and only if the configuration is partitioned |
| Usage.KeyedCounter.Add | internal/metrics/gateway/keyed.go:35-39 | credits a known key, ignores any other, and moves the total by exactly that |
| Usage.KeyedCounter.Total | internal/metrics/gateway/keyed.go:53-60 | the sum over all keys, in whatever order |
| Usage.UsageRecorder.RecordCompletion | internal/metrics/gateway/usagerecorder.go:75-84 | credits the completion's counters and passes the fact on |
| Usage.UsageRecorder.RecordRejection | internal/metrics/gateway/usagerecorder.go:86-90 | counts by app and code and passes the fact on |
| Usage.UsageRecorder.RecordDoubleSpendRisk | internal/metrics/gateway/usagerecorder.go:98-103 | counts the risk and its positive estimate, and passes the fact on |
| Usage.UsageRecorder.RecordClientDisconnect | internal/metrics/gateway/usagerecorder.go:105-120 | counts the disconnect and its positive estimate, and passes the fact on |
| Usage.CountersAttributeByApp | internal/metrics/gateway/usagerecorder.go:75-120 | after any facts, every counter holds, per configured app, what those facts are worth and nothing for others |
| Usage.RefusalsAttributeByAppCode | internal/metrics/gateway/usagerecorder.go:86-90 | rejections are kept per app and code |
| Usage.TotalIsSumOfParts | internal/metrics/gateway/keyed.go:53-60 | a total is the sum of the per-app parts of the facts |
| Usage.RejectionsTotal | internal/metrics/gateway/usagerecorder.go:154 | likewise over app and code pairs |
| Windows.KeysNeverCollide | internal/redis/tokenlimiter.go:119-121 | over all app names, colons included, two counters share a key only if currency, app and window agree |
| Windows.HonestRetry | internal/redis/limiter.go:79-86 | from the clock's reading, waiting the advertised whole seconds lands in exactly the next window |
| Windows.ShorterRetryIsRefusedAgain | internal/api/handler.go:124-128 | one second less stays in the window that refused |
| Windows.SpanTouchesTwoWindows | internal/redis/limiter.go:65-66 | a one-second span touches at most two request windows |
| QuotaStore.Store.EvalIncrement | internal/redis/limiter.go:17-24 | increments and sets the expiry on the first write, in one step, unless the request was lost |
| QuotaStore.Store.EvalSpent | internal/redis/tokenlimiter.go:16-22 | reads the live value or zero and changes nothing |
| QuotaStore.Store.EvalDebit | internal/redis/tokenlimiter.go:24-32 | adds the cost and sets the expiry on the first write |
| Ledger.RunRefines | internal/redis/tokenlimiter.go:20-32 | through any charges, ticks and expiries the expiring store refines the ledger: live keys are positive and have one expiry |
| Ledger.CounterReadsLedger | internal/redis/tokenlimiter.go:73-121 | from its window's start to a second past its end a counter reads exactly the sum of charges stamped in it, late scripts included |
| Ledger.SlackIsTight | internal/redis/limiter.go:66-69 | at the very end of that second a counter can be gone: it then reads nothing of what the ledger holds |
| Ledger.ExpirySetOnce | internal/redis/limiter.go:22-24 | the first write sets the lifetime, later ones keep it, no other key changes |
| Ledger.LiveCounters | internal/redis/limiter.go:65-69 | at most three keys of an app and currency are live at any instant when no script is later than its window; with scripts up to a second late, at most four of requests and still three of tokens |
| RateLimits.Limiter.Allow | internal/redis/limiter.go:59-87 | counts before judging; an unmetered app costs no store call; a lost reply still counts |
| RateLimits.TokenLimiter.Check | internal/redis/tokenlimiter.go:73-98 | judges what has been settled and writes nothing |
| RateLimits.TokenLimiter.Settle | internal/redis/tokenlimiter.go:106-116 | debits a positive cost to the window of the settle time |
| QuotaRuns.AllowIsOneCharge | internal/redis/limiter.go:59-87 | a request admitted is one charge, admitted exactly when the ledger then holds at most the limit |
| QuotaRuns.WindowQuota | internal/redis/limiter.go:59-87 | between any two points of a run, admissions in a window are the growth of min(count, limit) |
| QuotaRuns.QuotaFromStart | internal/redis/limiter.go:59-87 | of n requests stamped in a window exactly min(n, limit) are admitted, late scripts included |
| QuotaRuns.SpanAdmitsTwiceTheLimit | internal/redis/limiter.go:15-24 | any one-second span of the gateway's clock admits at most twice the limit |
| QuotaRuns.RefusedCallerLandsInNextWindow | internal/redis/tokenlimiter.go:79-98 | a caller refused by either currency who waits the advertised seconds is in the next window |
| QuotaWindows.BudgetIsPerMinute | internal/redis/tokenlimiter.go:73-98 | over any history, a check admits exactly when the tokens stamped in the same sixty seconds are below the budget; else it tells the budget, the window, what was used and the time left |
| QuotaWindows.QuotaIsPerSecond | internal/redis/limiter.go:59-87 | the same for requests in one second, the judged one included |
| QuotaWindows.SettleDebitsTheMinute | internal/redis/tokenlimiter.go:106-121 | a debit moves one key, named by app and minute, to the minute's total, and gives it sixty-one seconds from its first write |
| QuotaWindows.AllowCountsInTheSecond | internal/redis/limiter.go:65-72 | a request moves one key, named by app and second, with two seconds from its first write |
| Fleet.ChargesAreTheLimiters | internal/gateway/llm_gateway.go:213-233 | a step's store writes are the limiters' own |
| Fleet.RunRefines | internal/redis/tokenlimiter.go:73-121 | in every interleaving, store errors included, counters agree with the ledger |
| FleetSlots.RunConserves | internal/gateway/llm_gateway.go:248-259 | in every interleaving a replica's count for an app is the number of its requests holding a slot there, within every limit |
| FleetSlots.AllReturnedIsInitial | internal/gateway/llm_gateway.go:248-259 | once every request has ended, by any path, each limiter is in its initial state |
| FleetBudget.SoftBudgetBound | internal/gateway/llm_gateway.go:231-291 | spend in any window is at most budget - 1 + (width + lates) * cost, where width bounds the unsettled requests whenever one settles and lates counts the checks that passed in it on an earlier window's counter |
| FleetBudget.StepContained | internal/redis/tokenlimiter.go:73-116 | each step keeps, window by window, the invariant behind the bound: under budget, or what may yet charge the window still fits |
| FleetBudget.CheckPassesUnderBudget | internal/redis/tokenlimiter.go:79-97 | a check that gets through passes exactly when the window of its stamp is under budget |
| FleetCeilings.CeilingBound | internal/slots/limiter.go:54-66 | the width is at most every replica's slots plus the requests between check and claim |
| FleetCeilings.AdjacentBound | docs/ADRs/ADR-003-token-budget-limiting.md:199 | with check and claim one step only slots and late checks count; with none late, the documented estimate once per replica |
| FleetOvershoot.OvershootIsExact | internal/gateway/llm_gateway.go:231-291 | for every configuration, request quotas included, and with counts and debits lost or without, a number bounds the spend of all such runs if and only if it is at least budget - 1 + (width + lates) * cost |
| FleetOvershoot.CeilingIsExact | internal/slots/limiter.go:54-66 | the same for runs on so many replicas with so many requests between check and claim: if and only if it is at least budget - 1 + (replicas * slots + gap + lates) * cost |
| FleetOvershoot.EstimateHoldsIff | docs/ADRs/ADR-003-token-budget-limiting.md:199 | the documented estimate, once per replica, holds if and only if gap and lates are zero |
| FleetOvershoot.NoCeilingContains | internal/gateway/llm_gateway.go:52-55 | whatever the ceiling and the bound, a run on one replica with one-token completions, no late check and no store error spends more |
| FleetAccounts.OneTerminalFactEach | internal/gateway/llm_gateway.go:202-338 | in every interleaving the terminal facts of an app are exactly its concluded requests |
| FleetAccounts.OneTerminalFactPerRequest | internal/gateway/llm_gateway.go:202-338 | in every interleaving a request's own steps record exactly one terminal fact once it is concluded, none before, all about its app |
| FleetAccounts.RecordedIsDebitedPlusPending | internal/gateway/llm_gateway.go:289-291 | recorded prompt plus completion tokens are the ledger's debits plus the cost served but not yet settled |
| ChatOnFleet.ChatIsAFleetRun | internal/gateway/llm_gateway.go:202-338 | for every valid request, late scripts and all, there is a run of fleet steps with the facts, store and slots of `Chat` |
| ChatOnFleet.AttemptsRun | internal/gateway/llm_gateway.go:277-337 | the failover loop, step by step, in the fleet |
| Resp.Write | internal/redis/client.go:242-260 | the append loop writes the command's encoding |
| Resp.BytesOnTheWire | internal/redis/client.go:242-260 | the bytes of a command: its count, then each argument behind its length, every line ended by CR LF |
| Decimal.OneMoreDigit | internal/redis/client.go:242-260 | lengths are decimal text |
| Resp.CommandRoundTrip | internal/redis/harness_test.go:237-268 | decoding an encoded command followed by anything gives back its arguments and exactly that remainder |
| Resp.CommandsAreSelfDelimiting | internal/redis/client.go:242-260 | equal byte streams start with equal commands |
| Resp.IntReplyRoundTrip | internal/redis/client.go:286-307 | every int64 reply line parses to its value, and nothing outside int64 does |
| Resp.OtherRepliesAreErrors | internal/redis/client.go:286-307 | an error reply is the server's own words, an empty one and any other kind are errors |
| Resp.ReplyLineConsumed | internal/redis/client.go:286-320 | a reply line is judged on its own and consumed exactly |
| Resp.Reader.ReadIntReply | internal/redis/client.go:286-320 | the reader consumes one line and judges it |
| Resp.Reader.ReadCommandArray | internal/redis/harness_test.go:237-268 | the reader's loops decode one command, however the bytes arrive in pieces |
| RespClient.Client.Int | internal/redis/client.go:99-119 | writes the command's encoding; succeeds exactly when its own reply line is an integer, and each failure is told apart; any error drops the connection, success pools it clean, a freshly dialed one too |
| RespClient.Client.Take | internal/redis/client.go:133-141 | the oldest pooled connection, else a fresh one in sync, else an error |
| RespClient.Client.Put | internal/redis/client.go:207-213 | pools up to the size and drops the surplus |
| ConnectionPool.NoCrossTalk | internal/redis/client.go:99-119 | in every interleaving of calls, replies in pieces, timeouts and errors, a successful call returns the server's answer to its own command |
| ConnectionPool.PooledConnectionsAreClean | internal/redis/client.go:207-213 | pooled connections are distinct, unowned, without unread or outstanding bytes, and never more than the size |
| ConnectionPool.IntIsARun | internal/redis/client.go:99-119 | uninterrupted, the steps of a call are `Client.Int` whatever becomes of it: the same result, the oldest connection or a dialed one pooled after a success and dropped otherwise, all others untouched |
| ProviderKeys.Cache.Refresh | internal/providerkeys/cache.go:169-194 | fail static: only a non-empty credential replaces the one in force, and the error says why not |
| ProviderKeys.Cache.RefreshAll | internal/providerkeys/cache.go:200-209 | every provider is read once in name order, failures reported together |
| ProviderKeys.EachRefreshedAlone | internal/providerkeys/cache.go:196-209 | each entry ends as if refreshed alone, so no failure keeps another from its success |
| ProviderKeys.FailuresAreTheFailed | internal/providerkeys/cache.go:200-209 | exactly the providers whose read was not worth keeping are reported |
| ProviderKeys.RefreshAllForgetsOrder | internal/providerkeys/cache.go:124-134 | whatever order the map is walked in |
| ProviderKeys.Cache.TriggerRefresh | internal/providerkeys/cache.go:217-229 | starts exactly when no triggered refresh is out and the cooldown has passed, and marks both |
| ProviderKeys.Cache.RunTriggered | internal/providerkeys/cache.go:231-242 | the flag comes down whatever the read brought |
| ProviderKeys.Cache.Ready | internal/providerkeys/cache.go:279-295 | ready exactly when nothing is configured or anything has loaded |
| KeyRuns.AtMostOneTriggered | internal/providerkeys/cache.go:217-245 | in every interleaving the flag is up exactly while one triggered refresh is out, the last started, and there is never a second |
| KeyRuns.StartsAreSpaced | internal/providerkeys/cache.go:226-229 | triggered starts are the cooldown or more apart |
| KeyRuns.StartsInSpan | internal/providerkeys/cache.go:20-24 | a span T holds at most T / 30s + 1 starts |
| KeyRuns.KeyIsLastCommitted | internal/providerkeys/cache.go:169-194 | the key in force is the last one committed, non-empty from the first commit on |
| KeyRuns.HoldsWhatItRead | internal/providerkeys/cache.go:178-190 | what a refresh commits is what its own read brought back |
| KeyRuns.KeyNeverLost | internal/providerkeys/cache.go:166-194 | a key once loaded never returns to empty |
| KeyRuns.ReadinessIsKept | internal/providerkeys/cache.go:279-295 | ready once, ready for good |
| KeyRuns.CooldownAloneDecides | internal/providerkeys/cache.go:14-24 | with reads cut off at 10s and gone soon after, a trigger starts exactly when the cooldown has passed |
| KeyRuns.HungReadHoldsTheSlot | internal/providerkeys/cache.go:14-18 | a read that hangs does hold the slot past the cooldown |
| KeyRuns.RefreshIsARun | internal/providerkeys/cache.go:169-194 | uninterrupted, the steps of a refresh are `Refresh` |
| OpenApi.Reject | internal/api/openapi.go:64-105 | accepts exactly the acceptable requests and otherwise names the first offender and its first fault |
| OpenApi.AcceptedIffNothingWrong | internal/api/openapi.go:64-105 | a request is accepted exactly when nothing the rejections name is wrong with it |
| OpenApi.ToDomain | internal/api/openapi.go:107-148 | every message, call and tool crosses in order, field for field |
| OpenApi.MessageToWire | internal/api/openapi.go:327-346 | content null exactly beside calls with no text; the answered id has no place |
| OpenApi.MessageRoundTrip | internal/api/openapi.go:327-346 | out and back is the same message exactly when it answers no call |
| OpenApi.SentBackIsAccepted | internal/api/openapi.go:78-93 | which of the gateway's own messages a caller may send back unchanged |
| OpenApi.AcceptedMessagesAreOwned | internal/api/openapi.go:78-93 | accepted calls are on assistants only and accepted results name a call |
| OllamaDialect.Request | internal/ollama/ollama_req.go:60-108 | every turn keeps its role, content and calls with names and arguments, and calls with minted ids read back as they were; each result goes out under the name of the last call before it with its id; sampling options carried; tools are dropped exactly under tool_choice none |
| OllamaDialect.ToDomain | internal/ollama/ollama_resp.go:22-58 | calls in order with ids call_1 on, totals and finish reason; a reply not done is a fault with its counts |
| OllamaDialect.MintedIdsAreDistinct | internal/ollama/ollama_resp.go:38-47 | ids minted in one message differ |
| OllamaDialect.ToolIdentity | internal/ollama/ollama_req.go:73-92 | a result naming a call of the closest message with calls goes out under that call's name, whatever ids earlier turns used |
| OllamaDialect.ToolIdentityEndToEnd | internal/api/openapi.go:107-130 | the same for a whole turn: minted, sent out, sent back, answered in any order |
| OllamaDialect.NamedRightIff | internal/ollama/ollama_req.go:73-92 | any result is named right exactly when the latest call with its id bears the intended name |
| OllamaDialect.MisnamedIff | internal/ollama/ollama_req.go:73-92 | with minted ids, a result for call p of an earlier turn is misnamed exactly when the last turn before it with a call at position p called another tool there |
| OllamaDialect.LateResultIsMisnamed | internal/ollama/ollama_req.go:73-77 | a late result goes out under another tool once the minted id repeats |
| OllamaDialect.ResultBeforeItsCallIsNameless | internal/ollama/ollama_req.go:73-77 | a result no call precedes goes out with no name |
| AnthropicDialect.Request | internal/anthropic/anthropic_req.go:54-98 | system turns joined apart, all others encoded in order; sampling parameters carried, every tool declared and every choice mapped |
| AnthropicDialect.RequestMessage | internal/anthropic/anthropic_req.go:103-132 | one turn's blocks |
| AnthropicDialect.ToDomain | internal/anthropic/anthropic_resp.go:31-64 | text joined, calls kept with their ids; an unknown stop reason is a fault with its counts |
| AnthropicDialect.TurnRoundTrip | internal/anthropic/anthropic_req.go:103-132 | a turn reads back as itself exactly when calls and answered id are only on the roles that own them |
| AnthropicDialect.TurnsSurviveInOrder | internal/anthropic/anthropic_req.go:66-74 | every non-system turn keeps its place and content |
| AnthropicDialect.EachTurnInPlace | internal/anthropic/anthropic_req.go:66-74 | each turn that is not the system's is sent behind exactly those before it, and nothing else is |
| AnthropicDialect.EachPromptInPlace | internal/anthropic/anthropic_req.go:66-74 | each system turn is joined behind exactly those before it |
| AnthropicDialect.RepliesReadInOrder | internal/anthropic/anthropic_resp.go:38-53 | a reply's text and calls are those of its blocks in order; other blocks say nothing |
| AnthropicDialect.SameWireSameTurns | internal/anthropic/anthropic_req.go:54-74 | equal wire messages come from equal turns |
| AnthropicDialect.AcceptedSurvivesIff | internal/api/openapi.go:78-93 | of what the public contract accepts, exactly which messages cross unchanged |
| AnthropicDialect.RepliesReadLikeHistory | internal/anthropic/anthropic_resp.go:38-53 | the response reader reads the request writer's assistant turns back |
| AnthropicDialect.ToolIdentityKept | internal/anthropic/anthropic_req.go:100-129 | a result matches a call by id on the wire exactly when it did before |
| AnthropicDialect.Partitioned | internal/anthropic/anthropic_req.go:66-74 | turns and system turns together are the conversation as a multiset, prompts are the system turns' contents in order, and no system role is among the messages |
| AnthropicDialect.PromptsJoined | internal/anthropic/anthropic_req.go:74 | the prompt is its parts in order with one blank line between |
| ConfigFile.ToDomain | internal/config/config.go:240-339 | accepts a file exactly when it is well formed, with exactly what it says, and otherwise reports the first error in name order |
| ConfigFile.NoErrorIffWellFormed | internal/config/config.go:240-305 | no check fires exactly in a well-formed file |
| ConfigFile.ErrorForgetsWalks | internal/config/config.go:266-276 | the error does not depend on how either map is walked |
| ConfigFile.LoadedIsUnique | internal/config/config.go:307-338 | nor does the configuration |
| ConfigFile.SecretSourceToDomain | internal/config/config.go:351-410 | the block's own fault first, else its first provider's, else every provider with its cadence |
| ConfigFile.CheckBlock | internal/config/config.go:352-380 | kinds, cadence and a vault exactly when it is read, with the defaults |
| ConfigFile.AppsToDomain | internal/config/config.go:273-305 | each app under its own subject, each limit under its name, or the first fault |
| ConfigFile.PolicyToDomain | internal/config/config.go:456-468 | the three policies, absent meaning same-model |
| ConfigFile.AllowlistedModelsHaveRows | internal/gateway/fallback_logic_build.go:52-64 | after acceptance each allowlisted model has a row in any plan whose requested model is served |
| ConfigFile.PoliciesAreKnown | internal/config/config.go:456-468 | the planner meets no policy it does not know |
| ConfigFile.CeilingsFitUnderCap | internal/config/config.go:284-286 | ceilings fit under a positive cap |
| ConfigFile.KeyedProvidersAreRouted | internal/config/config.go:389-407 | every keyed provider has a path, a positive cadence and a route |
| ConfigRuntime.ReportedErrorIsTrue | internal/config/config.go:240-410 | the error a refused file is given is true of the file: a real offender and the right complaint |
| ConfigRuntime.ReportedErrorIsFirst | internal/config/config.go:240-410 | and of all that is wrong with the file it comes first: by stage, by name, by check |
| ConfigRuntime.BootsIffFaultless | internal/config/config.go:240-410 | the files accepted are exactly those of which no error is true |
| ConfigRuntime.PolicyAsDeclared | internal/config/config.go:456-468 | each app runs under exactly the policy its file declares; none declared is same-model |
| ConfigRuntime.LoadedAsWritten | internal/config/config.go:307-410 | every other field is the file's, with five minutes and the default path where it is silent |
| ConfigRuntime.SubstitutionIsOptIn | internal/config/config.go:413-415 | an app whose file names no policy, or same-model, is never answered with another model, nor is one tried |
| ConfigRuntime.OnlyListedSubstitutes | internal/gateway/policy.go:12-14 | an app with an allowlist is answered only with its requested model or one its file lists |
| Handler.FromGatewayError | internal/api/handler.go:82-103 | status, code and exactly the details the error carries |
| Handler.HintRoundsUp | internal/api/handler.go:124-128 | Retry-After is never early and less than a second late |
| Handler.EveryReplyIsCandid | internal/api/handler.go:15-37 | over every outcome of `Chat`, for any limits, store, times and links: Retry-After on exactly the 429s, the substitution header on exactly the substitutions |
| Handler.HeaderIsHonest | internal/api/utils.go:91-94 | waiting the header of a quota refusal from the clock's reading lands in exactly the next window of its currency |
| Handler.UnknownCallerIsUnauthorized | internal/api/handler.go:105-122 | an unknown key is answered 401 without hint or details |
| Handler.RefusalStatus | internal/api/handler.go:82-122 | before any contact: 400, 429 with the quota or ceiling that refused, or 503 naming the model, each exactly for its cause |
| Handler.OutcomeStatus | internal/api/handler.go:15-37 | after a contact: the provider's completion field by field, nothing for a caller gone, 504 for the deadline, 503 exactly when the policy left one provider of a larger table, else 502 |

## Left out

- HTTP server, middleware, logging decorators, telemetry registration, health probes and `main`: plumbing with only easy claims.
- Sockets, TLS, AUTH and deadlines inside `dial`: a connection is fresh and in sync, or the call fails.
- JWT verification, the JWKS fetch, Vault and file fetchers: I/O and cryptography behind libraries.
- JSON and YAML decoding and the custom unmarshalers: the model starts from the wire structs.
- Lua: the three scripts are atomic operations of the store.
- `New` in the gateway and the key cache (configuration checks), `Key`, `Age`, `Interval` and `KeepFresh`: easy members; a periodic refresh is a `Begin` step at any time.
- The OpenAI dialect (near-identity), and floating point: sampling parameters are reals, compared and carried but never computed with.
- Error message texts, and the choice between the gateway's total deadline and the app's own: deadlines appear in a request only as whether they have passed.
- A script that runs more than a second after the window of its stamp has ended: its counter may have expired, and a count or a check would start from nothing (`Ledger.SlackIsTight`). No step of the model is that late.
- The planner's own slices are sequences; the route table is an array that no method modifies.
- Integer overflow of counters, usage totals and durations: counters are unbounded; only reply parsing is cut at int64.
- Real goroutine mechanics: concurrency is interleaving at port calls and lock regions; no order is claimed between a periodic and a triggered refresh that overlap.
- Chat.Service.Chat: the caller's context and the total deadline are oracle values after each attempt, and so is the time it took, which only the record sees.
- ChatOnFleet.ChatIsAFleetRun: gives a run for valid requests only; an invalid request touches no shared state but the record.
- ProviderKeys.Cache.Refresh: entries are values in a map field of the cache, so sharing one entry between holders is not captured.
- Usage.UsageRecorder.RecordCompletion: the recorder holds its counters as map fields rather than as counter objects; `KeyedCounter` models the object.
- FleetBudget.SoftBudgetBound: assumes that no script is later than above, and that the app's budget checks get through, since a store error admits by design; `ChatProperties.ErrorNeverRefuses` proves that separately.
- FleetOvershoot.OvershootIsExact: a request may wait any time between two port calls, since the total deadline starts only once its slot is claimed; bounds for runs with a limit on that wait, where a request quota sets the pace, are not stated.
- FleetAccounts.RecordedIsDebitedPlusPending: assumes a metered app, settlements that get through and non-negative usage, the cases in which the code promises it.
- Resp.CommandRoundTrip: arguments a Go slice can hold; allocation limits of the decoder are not modelled.
- AnthropicDialect.Request: content blocks are a datatype with one constructor per kind; fields a block does not own are absent rather than empty.
