/** The two rate currencies in nanoseconds and literal keys: requests a second, tokens a minute. */
module QuotaWindows {
  import opened Wrappers
  import opened Sums
  import opened Domain
  import opened Windows
  import opened QuotaStore
  import opened Ledger
  import opened Decimal
  import RateLimits

  /** What the app was charged with stamps in one stretch of `span` nanoseconds. */
  function Charged(history: seq<Charge>, c: Currency, app: string, span: nat, stretch: nat): int
    requires span > 0
  {
    if history == [] then 0
    else
      var first := history[0];
      (if first.currency == c && first.app == app && first.at / span == stretch then first.amount else 0)
      + Charged(history[1..], c, app, span, stretch)
  }

  lemma {:induction false} ChargedPush(history: seq<Charge>, charge: Charge, c: Currency, app: string, span: nat, stretch: nat)
    requires span > 0
    ensures Charged(history + [charge], c, app, span, stretch)
         == Charged(history, c, app, span, stretch)
            + if charge.currency == c && charge.app == app && charge.at / span == stretch then charge.amount else 0
  {
    if history == [] {
      assert history + [charge] == [charge] && [charge][1..] == [];
    } else {
      assert (history + [charge])[1..] == history[1..] + [charge];
      ChargedPush(history[1..], charge, c, app, span, stretch);
    }
  }

  lemma {:induction false} TotalIsCharged(history: seq<Charge>, c: Currency, app: string, window: nat)
    ensures Total(history, c, app, window) == Charged(history, c, app, Width(c), window)
  {
    if history != [] {
      var front, last := history[..|history| - 1], history[|history| - 1];
      TotalIsCharged(front, c, app, window);
      ChargedPush(front, last, c, app, Width(c), window);
      assert front + [last] == history;
    }
  }

  const MINUTE: nat := 60_000_000_000

  /**
   * The token budget is per minute: with the store up, a check stamped `clock` passes exactly when
   * the app's settled tokens stamped in the same minute are below its budget; otherwise it is told
   * the budget, the sixty-second window, the tokens settled and the time to the minute's end.
   */
  lemma {:induction false} BudgetIsPerMinute(budgets: map<string, int>, m: Meter, app: string, clock: nat, link: Link)
    requires Refines(m) && clock <= m.now < (clock / MINUTE + 1) * MINUTE + 1_000_000_000
    ensures
      var budget, spent := At(budgets, app), Charged(m.history, Tokens, app, MINUTE, clock / MINUTE);
      RateLimits.CheckVerdict(budgets, m.entries, Moment(clock, m.now), app, link) ==
        if budget <= 0 then Ok(Admit)
        else if link != Up then Err(StoreDown)
        else if spent < budget then Ok(Admit)
        else Ok(Refuse(MINUTE - clock % MINUTE, QuotaDetail(budget, 60, spent)))
  {
    CounterReadsLedger(m, Tokens, app, clock);
    TotalIsCharged(m.history, Tokens, app, clock / MINUTE);
  }

  /** The request quota is per second, and the request judged is among those counted. */
  lemma {:induction false} QuotaIsPerSecond(limits: map<string, int>, m: Meter, app: string, clock: nat, link: Link)
    requires Refines(m) && clock <= m.now < (clock / 1_000_000_000 + 1) * 1_000_000_000 + 1_000_000_000
    ensures
      var limit, used := At(limits, app), Charged(m.history, Requests, app, 1_000_000_000, clock / 1_000_000_000) + 1;
      RateLimits.AllowVerdict(limits, m.entries, Moment(clock, m.now), app, link) ==
        if limit <= 0 then Ok(Admit)
        else if link != Up then Err(StoreDown)
        else if used <= limit then Ok(Admit)
        else Ok(Refuse(1_000_000_000 - clock % 1_000_000_000, QuotaDetail(limit, 1, used)))
  {
    CounterReadsLedger(m, Requests, app, clock);
    TotalIsCharged(m.history, Requests, app, clock / 1_000_000_000);
  }

  /** Everything in the store is as it was but this key, which holds `value` and lasts `lifetime` from its first write. */
  predicate Bumped(before: Entries, after: Entries, now: nat, key: string, value: int, lifetime: nat) {
    after == before[key := Entry(value, if key in before then before[key].expires else Some(now + lifetime))]
  }

  /** A served completion's tokens land on its app's counter of the minute, kept sixty-one seconds from its first debit. */
  lemma {:induction false} SettleDebitsTheMinute(budgets: map<string, int>, m: Meter, app: string, clock: nat, tokens: int, link: Link)
    requires Refines(m) && clock <= m.now < (clock / MINUTE + 1) * MINUTE + 1_000_000_000
    ensures
      var after := RateLimits.SettleEntries(budgets, m.entries, Moment(clock, m.now), app, tokens, link);
      if At(budgets, app) <= 0 || tokens <= 0 || link == RequestLost then after == m.entries
      else Bumped(m.entries, after, m.now, "llmgw:tpm:" + app + ":" + FormatNat(clock / MINUTE),
                  Charged(m.history, Tokens, app, MINUTE, clock / MINUTE) + tokens, 61_000_000_000)
  {
    CounterReadsLedger(m, Tokens, app, clock);
    OpenWindowIsLive(m, Tokens, app, clock);
    TotalIsCharged(m.history, Tokens, app, clock / MINUTE);
    assert RefinesAt(m, Tokens, app, clock / MINUTE);
  }

  /** A request lands on its app's counter of the second, kept two seconds from its first request, refused or not. */
  lemma {:induction false} AllowCountsInTheSecond(limits: map<string, int>, m: Meter, app: string, clock: nat, link: Link)
    requires Refines(m) && clock <= m.now < (clock / 1_000_000_000 + 1) * 1_000_000_000 + 1_000_000_000
    ensures
      var after := RateLimits.AllowEntries(limits, m.entries, Moment(clock, m.now), app, link);
      if At(limits, app) <= 0 || link == RequestLost then after == m.entries
      else Bumped(m.entries, after, m.now, "llmgw:rps:" + app + ":" + FormatNat(clock / 1_000_000_000),
                  Charged(m.history, Requests, app, 1_000_000_000, clock / 1_000_000_000) + 1, 2_000_000_000)
  {
    CounterReadsLedger(m, Requests, app, clock);
    OpenWindowIsLive(m, Requests, app, clock);
    TotalIsCharged(m.history, Requests, app, clock / 1_000_000_000);
    assert RefinesAt(m, Requests, app, clock / 1_000_000_000);
  }
}
