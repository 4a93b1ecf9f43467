/** Metering windows: their counters' keys, lifetimes and the retry hint they give. */
module Windows {
  import opened Decimal

  datatype Currency = Requests | Tokens

  // Time is nanoseconds since the epoch.
  const SECOND: nat := 1_000_000_000

  function WindowSeconds(c: Currency): nat {
    match c
    case Requests => 1
    case Tokens => 60
  }

  function Width(c: Currency): nat {
    WindowSeconds(c) * SECOND
  }

  function WindowOf(c: Currency, now: nat): nat {
    now / Width(c)
  }

  /** A counter's lifetime in seconds: its window and one second more. */
  function Lifetime(c: Currency): nat {
    WindowSeconds(c) + 1
  }

  function Prefix(c: Currency): string {
    match c
    case Requests => "llmgw:rps:"
    case Tokens => "llmgw:tpm:"
  }

  function Key(c: Currency, app: string, window: nat): string {
    Prefix(c) + app + ":" + FormatNat(window)
  }

  /**
   * One call on the store: what the gateway's clock said when it picked the counter's key,
   * and when the script ran. A round trip lies between, and a window may end in it.
   */
  datatype Moment = Moment(clock: nat, store: nat)

  /** The script runs within `slack` of the end of the window its key was picked for. */
  predicate Within(c: Currency, when: Moment, slack: nat) {
    when.clock <= when.store < (WindowOf(c, when.clock) + 1) * Width(c) + slack
  }

  /** A counter outlives its window by a second, so a script is in time for that long. */
  predicate Timely(c: Currency, when: Moment) {
    Within(c, when, SECOND)
  }

  /** Time left in the current window. */
  function RetryAfter(c: Currency, now: nat): nat {
    Width(c) - now % Width(c)
  }

  /** Go's division truncates; the argument is never negative here. */
  function CeilSeconds(d: nat): nat {
    (d + SECOND - 1) / SECOND
  }

  // ---- keys never collide ----

  lemma {:induction false} SplitAtLastColon(a: string, d: string, b: string, e: string)
    requires a + ":" + d == b + ":" + e && ':' !in d && ':' !in e
    ensures a == b && d == e
  {
    var s, t := a + ":" + d, b + ":" + e;
    assert s[|a|] == ':' && t[|b|] == ':';
    assert |d| == |e|;
    assert a == s[..|a|] && b == t[..|a|] && d == s[|a| + 1..] && e == t[|a| + 1..];
  }

  lemma {:induction false} NoColonInDigits(n: nat)
    ensures ':' !in FormatNat(n)
  {
    var s := FormatNat(n);
    forall i | 0 <= i < |s| ensures s[i] != ':' {
      assert IsDigit(s[i]);
    }
  }

  /** Whatever the app is called, no two counters share a key. */
  lemma {:induction false} KeysNeverCollide(c: Currency, a: string, v: nat, d: Currency, b: string, w: nat)
    ensures Key(c, a, v) == Key(d, b, w) <==> c == d && a == b && v == w
  {
    if Key(c, a, v) == Key(d, b, w) {
      assert Key(c, a, v)[6] == Prefix(c)[6] && Key(d, b, w)[6] == Prefix(d)[6];
      assert c == d;
      var restA, restB := a + ":" + FormatNat(v), b + ":" + FormatNat(w);
      assert Key(c, a, v) == Prefix(c) + restA && Key(c, b, w) == Prefix(c) + restB;
      assert restA == Key(c, a, v)[|Prefix(c)|..] && restB == Key(c, b, w)[|Prefix(c)|..];
      NoColonInDigits(v);
      NoColonInDigits(w);
      SplitAtLastColon(a, FormatNat(v), b, FormatNat(w));
      FormatNatInjective(v, w);
    }
  }

  // ---- the retry hint ----

  /** Waiting the advertised whole seconds lands in exactly the next window. */
  lemma {:induction false} HonestRetry(c: Currency, now: nat)
    ensures 0 < RetryAfter(c, now) <= Width(c)
    ensures WindowOf(c, now + CeilSeconds(RetryAfter(c, now)) * SECOND) == WindowOf(c, now) + 1
  {
    var wait := CeilSeconds(RetryAfter(c, now)) * SECOND;
    assert RetryAfter(c, now) <= wait < RetryAfter(c, now) + SECOND;
    assert wait <= Width(c);
    assert now == WindowOf(c, now) * Width(c) + now % Width(c);
  }

  /** One whole second less stays in the window that refused. */
  lemma {:induction false} ShorterRetryIsRefusedAgain(c: Currency, now: nat)
    ensures WindowOf(c, now + (CeilSeconds(RetryAfter(c, now)) - 1) * SECOND) == WindowOf(c, now)
  {
    var wait := (CeilSeconds(RetryAfter(c, now)) - 1) * SECOND;
    assert wait < RetryAfter(c, now);
  }

  /** A one-second span touches at most two request windows. */
  lemma {:induction false} SpanTouchesTwoWindows(start: nat, t: nat)
    requires start <= t < start + SECOND
    ensures WindowOf(Requests, t) == WindowOf(Requests, start) || WindowOf(Requests, t) == WindowOf(Requests, start) + 1
  {
  }
}
