/** Usage accounting: counters over closed key sets, fed by the facts of each request. */
module Usage {
  import opened Domain
  import opened Sums

  // ---- closed-key counters ----

  /** A key outside the set is dropped, never created. */
  function Credit<K>(m: map<K, int>, key: K, n: int): map<K, int> {
    if key in m then m[key := m[key] + n] else m
  }

  /** Exactly this key's count has moved, by `n`; a key outside the set moves nothing. */
  predicate Raised<K>(before: map<K, int>, after: map<K, int>, key: K, n: int) {
    after.Keys == before.Keys && forall k :: k in before ==> after[k] == before[k] + if k == key then n else 0
  }

  class KeyedCounter<K(==)> {
    var byKey: map<K, int>

    constructor (keys: seq<K>)
      ensures byKey == map k | k in keys :: 0
    {
      byKey := map k | k in keys :: 0;
    }

    method Add(key: K, n: int)
      modifies this
      ensures byKey == Credit(old(byKey), key, n)
      ensures Raised(old(byKey), byKey, key, n)
      ensures Sum(byKey) == old(Sum(byKey)) + if key in byKey then n else 0
    {
      if key in byKey {
        SumUpdate(byKey, key, byKey[key] + n);
        byKey := byKey[key := byKey[key] + n];
      }
    }

    method Get(key: K) returns (n: int)
      ensures n == At(byKey, key)
    {
      n := if key in byKey then byKey[key] else 0;
    }

    /** In whatever order the keys come. */
    method Total() returns (sum: int)
      ensures sum == Sum(byKey)
    {
      sum := 0;
      var rest := byKey;
      while rest.Keys != {}
        invariant sum + Sum(rest) == Sum(byKey)
        decreases |rest|
      {
        var k :| k in rest.Keys;
        SumWithout(rest, k);
        sum := sum + rest[k];
        rest := rest - {k};
      }
    }
  }

  // ---- what is recorded ----

  datatype Event =
    | Completed(app: string, mp: ModelProvider, usage: Domain.Usage, latency: nat, failedOver: bool)
    | Rejected(app: string, code: ErrorCode)
    | FailedOpen(app: string)
    | DoubleSpendRisked(app: string, mp: ModelProvider, estimate: int)
    | Disconnected(app: string, mp: ModelProvider, estimate: int)

  /** The facts that end a request. */
  predicate Terminal(e: Event) {
    e.Completed? || e.Rejected? || e.Disconnected?
  }

  datatype Metric =
    | Completions
    | FailedOvers
    | PromptTokens
    | CompletionTokens
    | FailOpens
    | DoubleSpendRisks
    | DoubleSpendTokens
    | ClientDisconnects
    | ClientDisconnectTokens

  /** A counter may not run backwards: only a positive estimate counts. */
  function Positive(n: int): nat {
    if n > 0 then n else 0
  }

  /** What one fact is worth to one metric. */
  function Worth(metric: Metric, e: Event): int {
    match (metric, e)
    case (Completions, Completed(_, _, _, _, _)) => 1
    case (FailedOvers, Completed(_, _, _, _, failedOver)) => if failedOver then 1 else 0
    case (PromptTokens, Completed(_, _, usage, _, _)) => usage.prompt
    case (CompletionTokens, Completed(_, _, usage, _, _)) => usage.completion
    case (FailOpens, FailedOpen(_)) => 1
    case (DoubleSpendRisks, DoubleSpendRisked(_, _, _)) => 1
    case (DoubleSpendTokens, DoubleSpendRisked(_, _, estimate)) => Positive(estimate)
    case (ClientDisconnects, Disconnected(_, _, _)) => 1
    case (ClientDisconnectTokens, Disconnected(_, _, estimate)) => Positive(estimate)
    case _ => 0
  }

  function Tally(log: seq<Event>, metric: Metric, app: string): int {
    if log == [] then 0
    else
      var last := log[|log| - 1];
      Tally(log[..|log| - 1], metric, app) + if last.app == app then Worth(metric, last) else 0
  }

  function Refusals(log: seq<Event>, app: string, code: ErrorCode): nat {
    if log == [] then 0
    else Refusals(log[..|log| - 1], app, code) + if log[|log| - 1] == Rejected(app, code) then 1 else 0
  }

  const CODES: seq<ErrorCode> := [
    InvalidRequest, Unauthorized, QuotaExceeded, ConcurrencyCeiling, UpstreamFailed, ModelUnavailable, GatewayTimeout
  ]

  /** All counters of a recorder. */
  datatype Counters = Counters(
    completions: map<string, int>,
    failedOvers: map<string, int>,
    promptTokens: map<string, int>,
    completionTokens: map<string, int>,
    rejections: map<(string, ErrorCode), int>,
    failOpens: map<string, int>,
    doubleSpendRisks: map<string, int>,
    doubleSpendTokens: map<string, int>,
    clientDisconnects: map<string, int>,
    clientDisconnectTokens: map<string, int>)
  {
    function Of(metric: Metric): map<string, int> {
      match metric
      case Completions => completions
      case FailedOvers => failedOvers
      case PromptTokens => promptTokens
      case CompletionTokens => completionTokens
      case FailOpens => failOpens
      case DoubleSpendRisks => doubleSpendRisks
      case DoubleSpendTokens => doubleSpendTokens
      case ClientDisconnects => clientDisconnects
      case ClientDisconnectTokens => clientDisconnectTokens
    }
  }

  function Zeros(apps: seq<string>): map<string, int> {
    map app | app in apps :: 0
  }

  function AppCodeZeros(apps: seq<string>): map<(string, ErrorCode), int> {
    map key: (string, ErrorCode) | key in AppCodeKeys(apps) :: 0
  }

  /** The cross product of the two closed sets. */
  function AppCodeKeys(apps: seq<string>): set<(string, ErrorCode)> {
    set app, code | app in apps && code in CODES :: (app, code)
  }

  function NoCounts(apps: seq<string>): Counters {
    var z := Zeros(apps);
    Counters(z, z, z, z, AppCodeZeros(apps), z, z, z, z, z)
  }

  function AddEstimate(m: map<string, int>, app: string, tokens: int): map<string, int> {
    if tokens > 0 then Credit(m, app, tokens) else m
  }

  function Record(c: Counters, e: Event): Counters {
    match e
    case Completed(app, _, usage, _, failedOver) =>
      c.(completions := Credit(c.completions, app, 1),
         promptTokens := Credit(c.promptTokens, app, usage.prompt),
         completionTokens := Credit(c.completionTokens, app, usage.completion),
         failedOvers := if failedOver then Credit(c.failedOvers, app, 1) else c.failedOvers)
    case Rejected(app, code) => c.(rejections := Credit(c.rejections, (app, code), 1))
    case FailedOpen(app) => c.(failOpens := Credit(c.failOpens, app, 1))
    case DoubleSpendRisked(app, _, estimate) =>
      c.(doubleSpendRisks := Credit(c.doubleSpendRisks, app, 1),
         doubleSpendTokens := AddEstimate(c.doubleSpendTokens, app, estimate))
    case Disconnected(app, _, estimate) =>
      c.(clientDisconnects := Credit(c.clientDisconnects, app, 1),
         clientDisconnectTokens := AddEstimate(c.clientDisconnectTokens, app, estimate))
  }

  /** One completion counted: its tokens, and the failover if there was one, each in its own counter. */
  predicate CompletionCounted(before: Counters, after: Counters, app: string, usage: Domain.Usage, failedOver: bool) {
    && Raised(before.completions, after.completions, app, 1)
    && Raised(before.promptTokens, after.promptTokens, app, usage.prompt)
    && Raised(before.completionTokens, after.completionTokens, app, usage.completion)
    && Raised(before.failedOvers, after.failedOvers, app, if failedOver then 1 else 0)
    && after == before.(completions := after.completions, failedOvers := after.failedOvers,
                        promptTokens := after.promptTokens, completionTokens := after.completionTokens)
  }

  lemma {:induction false} RecordCountsCompletion(
    c: Counters, app: string, mp: ModelProvider, usage: Domain.Usage, latency: nat, failedOver: bool)
    ensures CompletionCounted(c, Record(c, Completed(app, mp, usage, latency, failedOver)), app, usage, failedOver)
  {
  }

  function RecordAll(apps: seq<string>, log: seq<Event>): Counters {
    if log == [] then NoCounts(apps) else Record(RecordAll(apps, log[..|log| - 1]), log[|log| - 1])
  }

  /** The counting recorder. `next` is every call it forwarded, unchanged and in order. */
  class UsageRecorder {
    const apps: seq<string>
    var next: seq<Event>
    var completions: map<string, int>
    var failedOvers: map<string, int>
    var promptTokens: map<string, int>
    var completionTokens: map<string, int>
    var rejections: map<(string, ErrorCode), int>
    var failOpens: map<string, int>
    var doubleSpendRisks: map<string, int>
    var doubleSpendTokens: map<string, int>
    var clientDisconnects: map<string, int>
    var clientDisconnectTokens: map<string, int>

    function View(): Counters
      reads this
    {
      Counters(completions, failedOvers, promptTokens, completionTokens, rejections, failOpens,
               doubleSpendRisks, doubleSpendTokens, clientDisconnects, clientDisconnectTokens)
    }

    /** The counters are a function of what was forwarded. */
    ghost predicate Valid()
      reads this
    {
      View() == RecordAll(apps, next)
    }

    constructor (apps: seq<string>)
      ensures Valid() && next == [] && this.apps == apps
    {
      var zeros := Zeros(apps);
      this.apps, next := apps, [];
      completions, failedOvers, promptTokens, completionTokens := zeros, zeros, zeros, zeros;
      rejections := AppCodeZeros(apps);
      failOpens, doubleSpendRisks, doubleSpendTokens := zeros, zeros, zeros;
      clientDisconnects, clientDisconnectTokens := zeros, zeros;
    }

    method RecordCompletion(app: string, mp: ModelProvider, usage: Domain.Usage, latency: nat, failedOver: bool)
      requires Valid()
      modifies this
      ensures Valid() && next == old(next) + [Completed(app, mp, usage, latency, failedOver)]
      ensures CompletionCounted(old(View()), View(), app, usage, failedOver)
    {
      RecordCountsCompletion(View(), app, mp, usage, latency, failedOver);
      completions := Credit(completions, app, 1);
      promptTokens := Credit(promptTokens, app, usage.prompt);
      completionTokens := Credit(completionTokens, app, usage.completion);
      if failedOver {
        failedOvers := Credit(failedOvers, app, 1);
      }
      Forward(Completed(app, mp, usage, latency, failedOver));
    }

    method RecordRejection(app: string, code: ErrorCode)
      requires Valid()
      modifies this
      ensures Valid() && next == old(next) + [Rejected(app, code)]
      ensures Raised(old(rejections), rejections, (app, code), 1)
      ensures View() == old(View()).(rejections := rejections)
    {
      rejections := Credit(rejections, (app, code), 1);
      Forward(Rejected(app, code));
    }

    method RecordRateLimiterFailOpen(app: string)
      requires Valid()
      modifies this
      ensures Valid() && next == old(next) + [FailedOpen(app)]
      ensures Raised(old(failOpens), failOpens, app, 1)
      ensures View() == old(View()).(failOpens := failOpens)
    {
      failOpens := Credit(failOpens, app, 1);
      Forward(FailedOpen(app));
    }

    method RecordDoubleSpendRisk(app: string, mp: ModelProvider, estimate: int)
      requires Valid()
      modifies this
      ensures Valid() && next == old(next) + [DoubleSpendRisked(app, mp, estimate)]
      ensures Raised(old(doubleSpendRisks), doubleSpendRisks, app, 1)
      ensures Raised(old(doubleSpendTokens), doubleSpendTokens, app, if estimate > 0 then estimate else 0)
      ensures View() == old(View()).(doubleSpendRisks := doubleSpendRisks, doubleSpendTokens := doubleSpendTokens)
    {
      doubleSpendRisks := Credit(doubleSpendRisks, app, 1);
      doubleSpendTokens := AddEstimate(doubleSpendTokens, app, estimate);
      Forward(DoubleSpendRisked(app, mp, estimate));
    }

    method RecordClientDisconnect(app: string, mp: ModelProvider, estimate: int)
      requires Valid()
      modifies this
      ensures Valid() && next == old(next) + [Disconnected(app, mp, estimate)]
      ensures Raised(old(clientDisconnects), clientDisconnects, app, 1)
      ensures Raised(old(clientDisconnectTokens), clientDisconnectTokens, app, if estimate > 0 then estimate else 0)
      ensures View() == old(View()).(clientDisconnects := clientDisconnects, clientDisconnectTokens := clientDisconnectTokens)
    {
      clientDisconnects := Credit(clientDisconnects, app, 1);
      clientDisconnectTokens := AddEstimate(clientDisconnectTokens, app, estimate);
      Forward(Disconnected(app, mp, estimate));
    }

    method Forward(e: Event)
      requires View() == Record(RecordAll(apps, next), e)
      modifies this`next
      ensures Valid() && next == old(next) + [e]
    {
      ghost var log := next;
      next := next + [e];
      assert next[..|next| - 1] == log;
    }
  }

  // ---- what the counters mean ----

  function TallyByApp(apps: seq<string>, log: seq<Event>, metric: Metric): map<string, int> {
    map app | app in apps :: Tally(log, metric, app)
  }

  /** Each counter attributes to each configured app what its own events are worth. */
  lemma {:induction false} CountersAttributeByApp(apps: seq<string>, log: seq<Event>, metric: Metric)
    ensures RecordAll(apps, log).Of(metric) == TallyByApp(apps, log, metric)
  {
    if log != [] {
      var front, last := log[..|log| - 1], log[|log| - 1];
      CountersAttributeByApp(apps, front, metric);
      var before, after := RecordAll(apps, front).Of(metric), RecordAll(apps, log).Of(metric);
      assert after == Credit(before, last.app, Worth(metric, last)) by {
        RecordCredits(RecordAll(apps, front), last, metric);
      }
    }
  }

  lemma {:induction false} RecordCredits(c: Counters, e: Event, metric: Metric)
    ensures Record(c, e).Of(metric) == Credit(c.Of(metric), e.app, Worth(metric, e))
  {
  }

  lemma {:induction false} RefusalsAttributeByAppCode(apps: seq<string>, log: seq<Event>, app: string, code: ErrorCode)
    ensures
      var counted := RecordAll(apps, log).rejections;
      && ((app, code) in counted <==> app in apps)
      && At(counted, (app, code)) == if app in apps then Refusals(log, app, code) else 0
  {
    if log == [] {
      EveryCodeListed(code);
      assert (app, code) in AppCodeKeys(apps) <==> app in apps;
    } else {
      RefusalsAttributeByAppCode(apps, log[..|log| - 1], app, code);
      RecordRefuses(RecordAll(apps, log[..|log| - 1]), log[|log| - 1], app, code);
    }
  }

  lemma {:induction false} RecordRefuses(c: Counters, e: Event, app: string, code: ErrorCode)
    ensures (app, code) in Record(c, e).rejections <==> (app, code) in c.rejections
    ensures At(Record(c, e).rejections, (app, code)) == At(c.rejections, (app, code))
              + if e == Rejected(app, code) && (app, code) in c.rejections then 1 else 0
  {
  }

  // ---- totals ----

  /** What the log is worth to a metric over all the configured apps. */
  function Worths(apps: seq<string>, log: seq<Event>, metric: Metric): int {
    if log == [] then 0
    else
      var last := log[|log| - 1];
      Worths(apps, log[..|log| - 1], metric) + if last.app in apps then Worth(metric, last) else 0
  }

  /** The process-wide total is the sum of the per-app parts, and nothing recorded for a configured app is lost. */
  lemma {:induction false} TotalIsSumOfParts(apps: seq<string>, log: seq<Event>, metric: Metric)
    ensures Sum(RecordAll(apps, log).Of(metric)) == Worths(apps, log, metric)
  {
    if log == [] {
      SumOfNothing(NoCounts(apps).Of(metric));
    } else {
      var front, last := log[..|log| - 1], log[|log| - 1];
      TotalIsSumOfParts(apps, front, metric);
      RecordCredits(RecordAll(apps, front), last, metric);
      CountersAttributeByApp(apps, front, metric);
      var parts := RecordAll(apps, front).Of(metric);
      if last.app in parts {
        SumUpdate(parts, last.app, parts[last.app] + Worth(metric, last));
      }
    }
  }

  /** Refusals of configured apps, of any code. */
  function RefusedOf(apps: seq<string>, log: seq<Event>): nat {
    if log == [] then 0
    else
      var last := log[|log| - 1];
      RefusedOf(apps, log[..|log| - 1]) + if last.Rejected? && last.app in apps then 1 else 0
  }

  lemma {:induction false} RejectionsTotal(apps: seq<string>, log: seq<Event>)
    ensures Sum(RecordAll(apps, log).rejections) == RefusedOf(apps, log)
  {
    if log == [] {
      SumOfNothing(NoCounts(apps).rejections);
    } else {
      var front, last := log[..|log| - 1], log[|log| - 1];
      RejectionsTotal(apps, front);
      var parts := RecordAll(apps, front).rejections;
      if last.Rejected? {
        RefusalsAttributeByAppCode(apps, front, last.app, last.code);
        if last.app in apps {
          SumUpdate(parts, (last.app, last.code), parts[(last.app, last.code)] + 1);
        }
      }
    }
  }

  lemma {:induction false} EveryCodeListed(code: ErrorCode)
    ensures code in CODES
  {
    match code
    case InvalidRequest => assert CODES[0] == code;
    case Unauthorized => assert CODES[1] == code;
    case QuotaExceeded => assert CODES[2] == code;
    case ConcurrencyCeiling => assert CODES[3] == code;
    case UpstreamFailed => assert CODES[4] == code;
    case ModelUnavailable => assert CODES[5] == code;
    case GatewayTimeout => assert CODES[6] == code;
  }
}
