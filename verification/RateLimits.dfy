/** The two rate currencies: requests per second, counted before the verdict, and tokens per minute, checked before and debited after. */
module RateLimits {
  import opened Wrappers
  import opened Sums
  import opened Domain
  import opened Windows
  import opened QuotaStore

  type Verdict = Result<RateDecision, StoreError>

  function Refusal(c: Currency, now: nat, limit: int, used: int): RateDecision {
    Refuse(RetryAfter(c, now), QuotaDetail(limit, WindowSeconds(c), used))
  }

  // ---- requests ----

  /** Zero, negative or absent: unmetered. */
  function AllowEntries(limits: map<string, int>, s: Entries, when: Moment, app: string, link: Link): Entries {
    if At(limits, app) <= 0 || link.RequestLost? then s
    else Increment(s, when.store, Key(Requests, app, WindowOf(Requests, when.clock)), Lifetime(Requests))
  }

  function AllowVerdict(limits: map<string, int>, s: Entries, when: Moment, app: string, link: Link): Verdict {
    if At(limits, app) <= 0 then Ok(Admit)
    else if !link.Up? then Err(StoreDown)
    else
      var used := Spent(s, when.store, Key(Requests, app, WindowOf(Requests, when.clock))) + 1;
      Ok(if used <= At(limits, app) then Admit else Refusal(Requests, when.clock, At(limits, app), used))
  }

  class Limiter {
    const store: Store
    const limits: map<string, int>

    constructor (store: Store, limits: map<string, int>)
      ensures this.store == store && this.limits == limits
    {
      this.store, this.limits := store, limits;
    }

    method Allow(when: Moment, app: string, link: Link) returns (r: Verdict)
      modifies store
      ensures store.entries == AllowEntries(limits, old(store.entries), when, app, link)
      ensures r == AllowVerdict(limits, old(store.entries), when, app, link)
    {
      var limit := At(limits, app);
      if limit <= 0 {
        return Ok(Admit);
      }
      var key := Key(Requests, app, WindowOf(Requests, when.clock));
      var used := store.EvalIncrement(when.store, key, Lifetime(Requests), link);
      if used.Err? {
        return Err(StoreDown);
      }
      if used.value <= limit {
        return Ok(Admit);
      }
      r := Ok(Refusal(Requests, when.clock, limit, used.value));
    }
  }

  // ---- tokens ----

  function CheckVerdict(budgets: map<string, int>, s: Entries, when: Moment, app: string, link: Link): Verdict {
    if At(budgets, app) <= 0 then Ok(Admit)
    else if !link.Up? then Err(StoreDown)
    else
      var spent := Spent(s, when.store, Key(Tokens, app, WindowOf(Tokens, when.clock)));
      Ok(if spent < At(budgets, app) then Admit else Refusal(Tokens, when.clock, At(budgets, app), spent))
  }

  function SettleEntries(budgets: map<string, int>, s: Entries, when: Moment, app: string, tokens: int, link: Link): Entries {
    if At(budgets, app) <= 0 || tokens <= 0 || link.RequestLost? then s
    else Debit(s, when.store, Key(Tokens, app, WindowOf(Tokens, when.clock)), tokens, Lifetime(Tokens))
  }

  class TokenLimiter {
    const store: Store
    const budgets: map<string, int>

    constructor (store: Store, budgets: map<string, int>)
      ensures this.store == store && this.budgets == budgets
    {
      this.store, this.budgets := store, budgets;
    }

    method Check(when: Moment, app: string, link: Link) returns (r: Verdict)
      ensures r == CheckVerdict(budgets, store.entries, when, app, link)
    {
      var budget := At(budgets, app);
      if budget <= 0 {
        return Ok(Admit);
      }
      var spent := store.EvalSpent(when.store, Key(Tokens, app, WindowOf(Tokens, when.clock)), link);
      if spent.Err? {
        return Err(StoreDown);
      }
      if spent.value < budget {
        return Ok(Admit);
      }
      r := Ok(Refusal(Tokens, when.clock, budget, spent.value));
    }

    method Settle(when: Moment, app: string, tokens: int, link: Link) returns (r: Result<(), StoreError>)
      modifies store
      ensures store.entries == SettleEntries(budgets, old(store.entries), when, app, tokens, link)
      ensures r.Err? <==> At(budgets, app) > 0 && tokens > 0 && !link.Up?
    {
      if At(budgets, app) <= 0 || tokens <= 0 {
        return Ok(());
      }
      var n := store.EvalDebit(when.store, Key(Tokens, app, WindowOf(Tokens, when.clock)), tokens, Lifetime(Tokens), link);
      r := if n.Err? then Err(StoreDown) else Ok(());
    }
  }
}

/** What the request quota adds up to over whole runs. */
module QuotaRuns {
  import opened Wrappers
  import opened Sums
  import opened Domain
  import opened Windows
  import opened QuotaStore
  import opened Ledger
  import RateLimits

  /** The store admits the app's next request, stamped `clock`. */
  predicate Admits(limits: map<string, int>, m: Meter, app: string, clock: nat) {
    RateLimits.AllowVerdict(limits, m.entries, Moment(clock, m.now), app, Up) == Ok(Admit)
  }

  function Ask(app: string, clock: nat): Event {
    Pay(Requests, app, 1, clock)
  }

  /** One if this event is a request of the app's, admitted with a stamp between `lo` and `hi`. */
  function AdmittedOne(limits: map<string, int>, m: Meter, e: Event, app: string, lo: nat, hi: nat): nat {
    if e.Pay? && e == Ask(app, e.clock) && lo <= e.clock < hi && Admits(limits, m, app, e.clock) then 1 else 0
  }

  /** How many of the app's requests are admitted with stamps from `lo` until `hi`. */
  function Admitted(limits: map<string, int>, m: Meter, events: seq<Event>, app: string, lo: nat, hi: nat): nat
    decreases |events|
  {
    if events == [] then 0
    else
      AdmittedOne(limits, m, events[0], app, lo, hi)
      + Admitted(limits, Step(m, events[0]), events[1..], app, lo, hi)
  }

  function Min(a: int, b: int): int {
    if a < b then a else b
  }

  /** Counting and judging is one script call: what `Allow` writes is one charge of the ledger. */
  lemma {:induction false} AllowIsOneCharge(limits: map<string, int>, m: Meter, app: string, clock: nat)
    requires Refines(m) && At(limits, app) > 0 && Timely(Requests, Moment(clock, m.now))
    ensures RateLimits.AllowEntries(limits, m.entries, Moment(clock, m.now), app, Up) == Step(m, Ask(app, clock)).entries
    ensures Admits(limits, m, app, clock) <==>
      Total(Step(m, Ask(app, clock)).history, Requests, app, WindowOf(Requests, clock)) <= At(limits, app)
  {
    CounterReadsLedger(m, Requests, app, clock);
    TotalPush(m.history, Charge(Requests, app, clock, 1), Requests, app, WindowOf(Requests, clock));
  }

  lemma {:induction false} InWindow(now: nat, window: nat)
    ensures WindowOf(Requests, now) == window <==> window * SECOND <= now < (window + 1) * SECOND
  {
  }

  lemma {:induction false} OneEventQuota(limits: map<string, int>, m: Meter, e: Event, app: string, window: nat)
    requires Refines(m) && Allowed(m, e) && At(limits, app) > 0
    ensures
      AdmittedOne(limits, m, e, app, window * SECOND, (window + 1) * SECOND)
        == Min(Total(Step(m, e).history, Requests, app, window), At(limits, app))
         - Min(Total(m.history, Requests, app, window), At(limits, app))
  {
    if e.Pay? {
      TotalPush(m.history, Charge(e.currency, e.app, e.clock, e.amount), Requests, app, window);
    }
    if e.Pay? && e == Ask(app, e.clock) {
      AllowIsOneCharge(limits, m, app, e.clock);
      InWindow(e.clock, window);
    }
  }

  /** Of n requests counted in a window, late scripts and all, exactly min(n, limit) are admitted. */
  lemma {:induction false} WindowQuota(limits: map<string, int>, m: Meter, events: seq<Event>, app: string, window: nat)
    requires Refines(m) && AllAllowed(m, events) && At(limits, app) > 0
    ensures
      var limit := At(limits, app);
      Admitted(limits, m, events, app, window * SECOND, (window + 1) * SECOND)
        == Min(Total(Run(m, events).history, Requests, app, window), limit)
         - Min(Total(m.history, Requests, app, window), limit)
    decreases |events|
  {
    if events != [] {
      var e := events[0];
      StepRefines(m, e);
      WindowQuota(limits, Step(m, e), events[1..], app, window);
      OneEventQuota(limits, m, e, app, window);
    }
  }

  lemma {:induction false} QuotaFromStart(limits: map<string, int>, now: nat, events: seq<Event>, app: string, window: nat)
    requires AllAllowed(Start(now), events) && At(limits, app) > 0
    ensures Admitted(limits, Start(now), events, app, window * SECOND, (window + 1) * SECOND)
         == Min(Total(Run(Start(now), events).history, Requests, app, window), At(limits, app))
  {
    StartRefines(now);
    WindowQuota(limits, Start(now), events, app, window);
  }

  lemma {:induction false} AdmittedSplits(limits: map<string, int>, m: Meter, events: seq<Event>, app: string, lo: nat, mid: nat, hi: nat)
    requires lo <= mid <= hi
    ensures Admitted(limits, m, events, app, lo, hi)
         == Admitted(limits, m, events, app, lo, mid) + Admitted(limits, m, events, app, mid, hi)
    decreases |events|
  {
    if events != [] {
      AdmittedSplits(limits, Step(m, events[0]), events[1..], app, lo, mid, hi);
    }
  }

  /** Any one-second span of the gateway's clock admits at most twice the limit. */
  lemma {:induction false} SpanAdmitsTwiceTheLimit(limits: map<string, int>, now: nat, events: seq<Event>, app: string, start: nat)
    requires AllAllowed(Start(now), events) && At(limits, app) > 0
    ensures Admitted(limits, Start(now), events, app, start, start + SECOND) <= 2 * At(limits, app)
  {
    var w := WindowOf(Requests, start);
    var m := Start(now);
    QuotaFromStart(limits, now, events, app, w);
    QuotaFromStart(limits, now, events, app, w + 1);
    var lo, mid, hi := w * SECOND, (w + 1) * SECOND, (w + 2) * SECOND;
    assert lo <= start && start + SECOND <= hi;
    AdmittedSplits(limits, m, events, app, lo, mid, hi);
    AdmittedSplits(limits, m, events, app, lo, start, hi);
    AdmittedSplits(limits, m, events, app, start, start + SECOND, hi);
  }

  /** Whoever either rate currency refuses, and waits the whole seconds told from the clock's reading on, arrives in exactly the next window. */
  lemma {:induction false} RefusedCallerLandsInNextWindow(
    limits: map<string, int>, s: Entries, when: Moment, app: string, tokens: bool, wait: nat, detail: QuotaDetail)
    requires
      (if tokens then RateLimits.CheckVerdict(limits, s, when, app, Up) else RateLimits.AllowVerdict(limits, s, when, app, Up))
        == Ok(Refuse(wait, detail))
    ensures
      var c := if tokens then Tokens else Requests;
      && CeilSeconds(wait) > 0
      && WindowOf(c, when.clock + CeilSeconds(wait) * SECOND) == WindowOf(c, when.clock) + 1
      && detail.windowSeconds == WindowSeconds(c) && detail.used >= detail.limit > 0
  {
    HonestRetry(if tokens then Tokens else Requests, when.clock);
  }
}
