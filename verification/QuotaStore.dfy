/** The shared quota store: expiring counters and the three scripts run on them. */
module QuotaStore {
  import opened Wrappers
  import opened Windows

  /** `expires` is None on a key without a lifetime: it would never go away. */
  datatype Entry = Entry(value: int, expires: Option<nat>)

  type Entries = map<string, Entry>

  predicate Live(s: Entries, now: nat, key: string) {
    key in s && (s[key].expires.None? || now < s[key].expires.value)
  }

  /** The script behind `Check`: a key never written, or expired, reads as zero. */
  function Spent(s: Entries, now: nat, key: string): int {
    if Live(s, now, key) then s[key].value else 0
  }

  /** INCRBY keeps a live key's lifetime and gives a new key none. */
  function IncrBy(s: Entries, now: nat, key: string, n: int): Entries {
    s[key := Entry(Spent(s, now, key) + n, if Live(s, now, key) then s[key].expires else None)]
  }

  function Expire(s: Entries, now: nat, key: string, ttl: nat): Entries
    requires key in s
  {
    s[key := s[key].(expires := Some(now + ttl * SECOND))]
  }

  /** INCRBY, then EXPIRE when the result is the increment itself. */
  function Debit(s: Entries, now: nat, key: string, n: int, ttl: nat): Entries {
    var added := IncrBy(s, now, key, n);
    if added[key].value == n then Expire(added, now, key, ttl) else added
  }

  /** INCR, then EXPIRE when the result is one. */
  function Increment(s: Entries, now: nat, key: string, ttl: nat): Entries {
    var added := IncrBy(s, now, key, 1);
    if added[key].value == 1 then Expire(added, now, key, ttl) else added
  }

  /** Redis reclaims keys whose lifetime is over, at its own pace. */
  function Reclaim(s: Entries, now: nat, keys: set<string>): Entries {
    map k | k in s && (k !in keys || Live(s, now, k)) :: s[k]
  }

  /** Whether a command reaches the store, and its reply the client. */
  datatype Link = Up | RequestLost | ReplyLost

  datatype StoreError = StoreDown

  function Reply(link: Link, n: int): Result<int, StoreError> {
    if link.Up? then Ok(n) else Err(StoreDown)
  }

  /** Each method is one script, run atomically at the store. */
  class Store {
    var entries: Entries

    constructor ()
      ensures entries == map[]
    {
      entries := map[];
    }

    method EvalSpent(now: nat, key: string, link: Link) returns (r: Result<int, StoreError>)
      ensures r == Reply(link, Spent(entries, now, key))
    {
      if link.Up? {
        r := Ok(if Live(entries, now, key) then entries[key].value else 0);
      } else {
        r := Err(StoreDown);
      }
    }

    method EvalIncrement(now: nat, key: string, ttl: nat, link: Link) returns (r: Result<int, StoreError>)
      modifies this
      ensures entries == if link.RequestLost? then old(entries) else Increment(old(entries), now, key, ttl)
      ensures r == Reply(link, Spent(old(entries), now, key) + 1)
    {
      if link.RequestLost? {
        return Err(StoreDown);
      }
      entries := IncrBy(entries, now, key, 1);
      var n := entries[key].value;
      if n == 1 {
        entries := Expire(entries, now, key, ttl);
      }
      r := Reply(link, n);
    }

    method EvalDebit(now: nat, key: string, n: int, ttl: nat, link: Link) returns (r: Result<int, StoreError>)
      modifies this
      ensures entries == if link.RequestLost? then old(entries) else Debit(old(entries), now, key, n, ttl)
      ensures r == Reply(link, Spent(old(entries), now, key) + n)
    {
      if link.RequestLost? {
        return Err(StoreDown);
      }
      entries := IncrBy(entries, now, key, n);
      var sum := entries[key].value;
      if sum == n {
        entries := Expire(entries, now, key, ttl);
      }
      r := Reply(link, sum);
    }
  }
}

/** The expiring counters beside a ledger that never forgets. */
module Ledger {
  import opened Wrappers
  import opened Windows
  import opened QuotaStore

  /** One successful charge: a counted request, or a completion's tokens. */
  datatype Charge = Charge(currency: Currency, app: string, at: nat, amount: int)

  datatype Meter = Meter(now: nat, entries: Entries, history: seq<Charge>)

  datatype Event = Pay(currency: Currency, app: string, amount: int, clock: nat) | Tick(elapsed: nat) | Expiry(keys: set<string>)

  function Start(now: nat): Meter {
    Meter(now, map[], [])
  }

  function ChargeEntries(m: Meter, c: Currency, app: string, amount: int, clock: nat): Entries {
    var key := Key(c, app, WindowOf(c, clock));
    match c
    case Requests => Increment(m.entries, m.now, key, Lifetime(c))
    case Tokens => Debit(m.entries, m.now, key, amount, Lifetime(c))
  }

  /** What the gateway ever charges, by a script that is in time. */
  predicate Allowed(m: Meter, e: Event) {
    e.Pay? ==> e.amount > 0 && (e.currency == Requests ==> e.amount == 1) && Timely(e.currency, Moment(e.clock, m.now))
  }

  /** A charge belongs to the window of its stamp, whenever its script runs. */
  function Step(m: Meter, e: Event): Meter {
    match e
    case Pay(c, app, amount, clock) =>
      Meter(m.now, ChargeEntries(m, c, app, amount, clock), m.history + [Charge(c, app, clock, amount)])
    case Tick(elapsed) => m.(now := m.now + elapsed)
    case Expiry(keys) => m.(entries := Reclaim(m.entries, m.now, keys))
  }

  predicate Counts(charge: Charge, c: Currency, app: string, window: nat) {
    charge.currency == c && charge.app == app && WindowOf(c, charge.at) == window
  }

  /** Everything ever charged to the app's window. */
  function Total(history: seq<Charge>, c: Currency, app: string, window: nat): int {
    if history == [] then 0
    else
      var last := history[|history| - 1];
      Total(history[..|history| - 1], c, app, window) + if Counts(last, c, app, window) then last.amount else 0
  }

  lemma {:induction false} TotalPush(history: seq<Charge>, charge: Charge, c: Currency, app: string, window: nat)
    ensures Total(history + [charge], c, app, window)
         == Total(history, c, app, window) + if Counts(charge, c, app, window) then charge.amount else 0
  {
    assert (history + [charge])[..|history|] == history;
  }

  // ---- refinement ----

  /** A second past a window's end, until when its scripts are in time. */
  function Closing(c: Currency, window: nat): nat {
    (window + 1) * Width(c) + SECOND
  }

  /** The app's counter for one window, if it is stored, is the ledger's total and lasts until the window closes; if not, nothing was charged before then. */
  predicate RefinesAt(m: Meter, c: Currency, app: string, window: nat) {
    var key, total := Key(c, app, window), Total(m.history, c, app, window);
    && (key in m.entries ==>
          && window <= WindowOf(c, m.now)
          && m.entries[key].value == total > 0
          && m.entries[key].expires.Some?
          && Closing(c, window) <= m.entries[key].expires.value)
    && (key !in m.entries && m.now < Closing(c, window) ==> total == 0)
  }

  ghost predicate Refines(m: Meter) {
    && (forall c, app, window :: RefinesAt(m, c, app, window))
    // No key outlives its lifetime, none holds nothing.
    && (forall key :: key in m.entries ==> m.entries[key].expires.Some? && m.entries[key].value > 0)
  }

  lemma {:induction false} OpenWindowIsLive(m: Meter, c: Currency, app: string, clock: nat)
    requires Refines(m) && Timely(c, Moment(clock, m.now))
    ensures
      var key := Key(c, app, WindowOf(c, clock));
      key in m.entries ==> Live(m.entries, m.now, key)
  {
    assert RefinesAt(m, c, app, WindowOf(c, clock));
  }

  /** From its window's start to a second past its end, a counter reads exactly what the ledger says. */
  lemma {:induction false} CounterReadsLedger(m: Meter, c: Currency, app: string, clock: nat)
    requires Refines(m) && Timely(c, Moment(clock, m.now))
    ensures
      var window := WindowOf(c, clock);
      Spent(m.entries, m.now, Key(c, app, window)) == Total(m.history, c, app, window) >= 0
  {
    assert RefinesAt(m, c, app, WindowOf(c, clock));
    OpenWindowIsLive(m, c, app, clock);
  }

  /** The second past the end is all there is: a charge at the start of a window is forgotten when the window closes. */
  lemma {:induction false} SlackIsTight(c: Currency, app: string)
    ensures
      var m := Run(Start(0), [Pay(c, app, 1, 0), Tick(Closing(c, 0))]);
      && m.now == Closing(c, 0) && Total(m.history, c, app, 0) == 1
      && Spent(m.entries, m.now, Key(c, app, 0)) == 0
  {
    var pay, tick := Pay(c, app, 1, 0), Tick(Closing(c, 0));
    var paid := Step(Start(0), pay);
    assert [pay, tick][1..] == [tick] && [tick][1..] == [];
    assert Run(Step(paid, tick), []) == Step(paid, tick);
    assert Run(paid, [tick]) == Step(paid, tick);
    TotalPush([], Charge(c, app, 0, 1), c, app, 0);
    assert [] + [Charge(c, app, 0, 1)] == paid.history;
  }

  lemma {:induction false} WindowsInOrder(c: Currency, clock: nat, now: nat)
    requires clock <= now
    ensures WindowOf(c, clock) <= WindowOf(c, now)
    ensures WindowOf(c, clock) * Width(c) <= clock
  {
  }

  lemma {:induction false} PayRefinesAt(m: Meter, e: Event, c: Currency, app: string, window: nat)
    requires Refines(m) && e.Pay? && Allowed(m, e)
    ensures RefinesAt(Step(m, e), c, app, window)
  {
    var stamped := WindowOf(e.currency, e.clock);
    TotalPush(m.history, Charge(e.currency, e.app, e.clock, e.amount), c, app, window);
    KeysNeverCollide(e.currency, e.app, stamped, c, app, window);
    CounterReadsLedger(m, e.currency, e.app, e.clock);
    WindowsInOrder(e.currency, e.clock, m.now);
    assert RefinesAt(m, c, app, window);
    assert Closing(e.currency, stamped) <= m.now + Lifetime(e.currency) * SECOND;
  }

  lemma {:induction false} TickRefinesAt(m: Meter, elapsed: nat, c: Currency, app: string, window: nat)
    requires Refines(m)
    ensures RefinesAt(Step(m, Tick(elapsed)), c, app, window)
  {
    assert RefinesAt(m, c, app, window);
    WindowsInOrder(c, m.now, m.now + elapsed);
  }

  lemma {:induction false} ExpiryRefinesAt(m: Meter, keys: set<string>, c: Currency, app: string, window: nat)
    requires Refines(m)
    ensures RefinesAt(Step(m, Expiry(keys)), c, app, window)
  {
    assert RefinesAt(m, c, app, window);
  }

  lemma {:induction false} StepRefines(m: Meter, e: Event)
    requires Refines(m) && Allowed(m, e)
    ensures Refines(Step(m, e))
  {
    forall c, app, window ensures RefinesAt(Step(m, e), c, app, window) {
      match e
      case Pay(_, _, _, _) => PayRefinesAt(m, e, c, app, window);
      case Tick(elapsed) => TickRefinesAt(m, elapsed, c, app, window);
      case Expiry(keys) => ExpiryRefinesAt(m, keys, c, app, window);
    }
    if e.Pay? {
      assert RefinesAt(Step(m, e), e.currency, e.app, WindowOf(e.currency, e.clock));
    }
  }

  lemma {:induction false} StartRefines(now: nat)
    ensures Refines(Start(now))
  {
  }

  function Run(m: Meter, events: seq<Event>): Meter
    decreases |events|
  {
    if events == [] then m else Run(Step(m, events[0]), events[1..])
  }

  predicate AllAllowed(m: Meter, events: seq<Event>)
    decreases |events|
  {
    events == [] || (Allowed(m, events[0]) && AllAllowed(Step(m, events[0]), events[1..]))
  }

  /** Through any charges, ticks and expiries, the store refines the ledger. */
  lemma {:induction false} RunRefines(m: Meter, events: seq<Event>)
    requires Refines(m) && AllAllowed(m, events)
    ensures Refines(Run(m, events))
    decreases |events|
  {
    if events != [] {
      StepRefines(m, events[0]);
      RunRefines(Step(m, events[0]), events[1..]);
    }
  }

  /** A live counter keeps the expiry of its first write; a new one gets its lifetime; the rest is untouched. */
  lemma {:induction false} ExpirySetOnce(m: Meter, c: Currency, app: string, amount: int, clock: nat)
    requires Refines(m) && Allowed(m, Pay(c, app, amount, clock))
    ensures
      var before, after, key := m.entries, Step(m, Pay(c, app, amount, clock)).entries, Key(c, app, WindowOf(c, clock));
      && key in after
      && after[key].expires == (if key in before then before[key].expires else Some(m.now + Lifetime(c) * SECOND))
      && after - {key} == before - {key}
  {
    CounterReadsLedger(m, c, app, clock);
    OpenWindowIsLive(m, c, app, clock);
  }

  // ---- how many counters live at once ----

  /** Written within `slack` of its window's end, a counter is gone a lifetime later. */
  predicate FreshAt(m: Meter, c: Currency, app: string, window: nat, slack: nat) {
    var key := Key(c, app, window);
    key in m.entries ==>
      && window <= WindowOf(c, m.now)
      && m.entries[key].expires.Some?
      && m.entries[key].expires.value < (window + 1) * Width(c) + slack + Lifetime(c) * SECOND
  }

  ghost predicate Fresh(m: Meter, slack: nat) {
    forall c, app, window :: FreshAt(m, c, app, window, slack)
  }

  predicate AllWithin(m: Meter, events: seq<Event>, slack: nat)
    decreases |events|
  {
    events == []
    || ((events[0].Pay? ==> Within(events[0].currency, Moment(events[0].clock, m.now), slack))
        && AllWithin(Step(m, events[0]), events[1..], slack))
  }

  lemma {:induction false} StepKeepsFresh(m: Meter, e: Event, slack: nat)
    requires Refines(m) && Fresh(m, slack) && Allowed(m, e)
    requires e.Pay? ==> Within(e.currency, Moment(e.clock, m.now), slack)
    ensures Fresh(Step(m, e), slack)
  {
    forall c, app, window ensures FreshAt(Step(m, e), c, app, window, slack) {
      assert FreshAt(m, c, app, window, slack);
      match e
      case Pay(currency, payer, amount, clock) =>
        ExpirySetOnce(m, currency, payer, amount, clock);
        KeysNeverCollide(currency, payer, WindowOf(currency, clock), c, app, window);
        WindowsInOrder(currency, clock, m.now);
      case Tick(elapsed) => WindowsInOrder(c, m.now, m.now + elapsed);
      case Expiry(_) =>
    }
  }

  lemma {:induction false} RunKeepsFresh(m: Meter, events: seq<Event>, slack: nat)
    requires Refines(m) && Fresh(m, slack) && AllAllowed(m, events) && AllWithin(m, events, slack)
    ensures Fresh(Run(m, events), slack)
    decreases |events|
  {
    if events != [] {
      StepRefines(m, events[0]);
      StepKeepsFresh(m, events[0], slack);
      RunKeepsFresh(Step(m, events[0]), events[1..], slack);
    }
  }

  /**
   * With no script later than its window, an app has at most three live counters per currency at
   * any instant; scripts up to a second late can keep a fourth request counter alive, no token counter.
   */
  lemma {:induction false} LiveCounters(now: nat, events: seq<Event>, slack: nat, c: Currency, app: string, windows: set<nat>)
    requires AllAllowed(Start(now), events) && AllWithin(Start(now), events, slack) && slack <= SECOND
    requires
      var m := Run(Start(now), events);
      forall w :: w in windows ==> Live(m.entries, m.now, Key(c, app, w))
    ensures |windows| <= if slack == 0 || c == Tokens then 3 else 4
  {
    StartRefines(now);
    RunKeepsFresh(Start(now), events, slack);
    var m := Run(Start(now), events);
    var current: int := WindowOf(c, m.now);
    var recent: set<int> := {current, current - 1, current - 2} + if slack == 0 || c == Tokens then {} else {current - 3};
    var all: set<int> := windows;
    forall w: int | w in all ensures w in recent {
      assert FreshAt(m, c, app, w, slack);
      StillLive(c, m.now, w, slack);
    }
    Subset(all, recent);
  }

  lemma {:induction false} StillLive(c: Currency, now: nat, window: nat, slack: nat)
    requires now < (window + 1) * Width(c) + slack + Lifetime(c) * SECOND && slack <= SECOND
    ensures WindowOf(c, now) <= window + if slack == 0 || c == Tokens then 2 else 3
  {
  }

  lemma {:induction false} Subset<T>(a: set<T>, b: set<T>)
    requires a <= b
    ensures |a| <= |b|
    decreases |a|
  {
    if a != {} {
      var x :| x in a;
      Subset(a - {x}, b - {x});
    }
  }
}
