/** In-flight slots: per-app ceilings under a global cap. */
module Slots {
  import opened Sums

  /** Zero or negative means that dimension is not metered. */
  datatype Config = Config(global: int, ceilings: map<string, int>)

  datatype State = State(inFlight: map<string, int>, total: int)

  datatype Answer = Granted | Refused(ceiling: int)

  function Empty(): State {
    State(map[], 0)
  }

  function Decide(c: Config, s: State, app: string): Answer {
    if At(c.ceilings, app) > 0 && At(s.inFlight, app) >= At(c.ceilings, app) then Refused(At(c.ceilings, app))
    else if c.global > 0 && s.total >= c.global then Refused(c.global)
    else Granted
  }

  function Claim(s: State, app: string): State {
    State(s.inFlight[app := At(s.inFlight, app) + 1], s.total + 1)
  }

  function Acquire(c: Config, s: State, app: string): State {
    if Decide(c, s, app).Granted? then Claim(s, app) else s
  }

  function Release(s: State, app: string): State {
    var left := At(s.inFlight, app) - 1;
    State(if left <= 0 then s.inFlight - {app} else s.inFlight[app := left], s.total - 1)
  }

  /** No app is on record with nothing in flight. */
  predicate Clean(s: State) {
    forall app :: app in s.inFlight ==> s.inFlight[app] > 0
  }

  /** The total is the sum of the parts, no entry is empty, and no positive limit is exceeded. */
  ghost predicate Sound(c: Config, s: State) {
    && Clean(s)
    && s.total == Sum(s.inFlight)
    && (forall app :: At(c.ceilings, app) > 0 ==> At(s.inFlight, app) <= At(c.ceilings, app))
    && (c.global > 0 ==> s.total <= c.global)
  }

  lemma {:induction false} ClaimKeepsSound(c: Config, s: State, app: string)
    requires Sound(c, s) && Decide(c, s, app).Granted?
    ensures Sound(c, Claim(s, app))
  {
    SumUpdate(s.inFlight, app, At(s.inFlight, app) + 1);
  }

  lemma {:induction false} ReleaseKeepsSound(c: Config, s: State, app: string)
    requires Sound(c, s) && At(s.inFlight, app) > 0
    ensures Sound(c, Release(s, app))
    ensures forall a :: At(Release(s, app).inFlight, a) == At(s.inFlight, a) - if a == app then 1 else 0
  {
    SumWithout(s.inFlight, app);
    SumUpdate(s.inFlight, app, At(s.inFlight, app) - 1);
  }

  /** How many slots of one replica an app can hold at once, if it has a ceiling. */
  function SlotsPerReplica(c: Config, app: string): nat
    requires At(c.ceilings, app) > 0
  {
    if 0 < c.global < At(c.ceilings, app) then c.global else At(c.ceilings, app)
  }

  lemma {:induction false} HeldFits(c: Config, s: State, app: string)
    requires Sound(c, s) && At(c.ceilings, app) > 0
    ensures At(s.inFlight, app) <= SlotsPerReplica(c, app)
  {
    SumWithout(s.inFlight, app);
    SumMonotone(map[], s.inFlight - {app});
  }

  lemma {:induction false} NothingHeldIsEmpty(c: Config, s: State)
    requires Sound(c, s) && forall app :: At(s.inFlight, app) == 0
    ensures s == Empty()
  {
    forall app ensures app !in s.inFlight {
      assert At(s.inFlight, app) == 0;
    }
    assert s.inFlight == map[];
  }

  /** A slot returned leaves no trace. */
  lemma {:induction false} ReleaseUndoesClaim(s: State, app: string)
    requires Clean(s)
    ensures Clean(Claim(s, app)) && Release(Claim(s, app), app) == s
  {
    if app !in s.inFlight {
      assert s.inFlight[app := 1] - {app} == s.inFlight;
    } else {
      assert s.inFlight[app := s.inFlight[app] + 1][app := s.inFlight[app]] == s.inFlight;
    }
  }

  class Limiter {
    const global: int
    const ceilings: map<string, int>
    var inFlight: map<string, int>
    var total: int

    constructor (global: int, ceilings: map<string, int>)
      ensures Conf() == Config(global, ceilings) && View() == Empty()
    {
      this.global, this.ceilings := global, ceilings;
      inFlight, total := map[], 0;
    }

    function Conf(): Config {
      Config(global, ceilings)
    }

    function View(): State
      reads this
    {
      State(inFlight, total)
    }

    /** Never blocks. On refusal it names the limit that refused, the app's own first. */
    method TryAcquire(app: string) returns (release: Grant?, ceiling: int, ok: bool)
      modifies this
      ensures ok <==> old(Decide(Conf(), View(), app)).Granted?
      ensures View() == old(Acquire(Conf(), View(), app))
      ensures !ok ==> release == null && old(Decide(Conf(), View(), app)) == Refused(ceiling)
      ensures ok ==> ceiling == 0 && release != null && fresh(release)
      ensures ok ==> release.limiter == this && release.app == app && !release.done
      ensures
        var own, held := At(ceilings, app), At(old(inFlight), app);
        && (ok <==> (own <= 0 || held < own) && (global <= 0 || old(total) < global))
        && (!ok ==> ceiling == if own > 0 && held >= own then own else global)
        && inFlight == (if ok then old(inFlight)[app := held + 1] else old(inFlight))
        && total == old(total) + if ok then 1 else 0
    {
      var own := At(ceilings, app);
      if own > 0 && At(inFlight, app) >= own {
        return null, own, false;
      }
      if global > 0 && total >= global {
        return null, global, false;
      }
      inFlight := inFlight[app := At(inFlight, app) + 1];
      total := total + 1;
      release := new Grant(this, app);
      ceiling, ok := 0, true;
    }

    method InFlight(app: string) returns (n: int)
      ensures n == At(View().inFlight, app)
    {
      n := At(inFlight, app);
    }

    method Total() returns (n: int)
      ensures n == View().total
    {
      n := total;
    }
  }

  /** The release closure: only its first call has an effect. */
  class Grant {
    const limiter: Limiter
    const app: string
    var done: bool

    constructor (limiter: Limiter, app: string)
      ensures this.limiter == limiter && this.app == app && !done
    {
      this.limiter, this.app, done := limiter, app, false;
    }

    method Call()
      modifies this, limiter
      ensures done
      ensures limiter.View() == if old(done) then old(limiter.View()) else Release(old(limiter.View()), app)
      ensures Clean(old(limiter.View())) ==>
                forall a :: At(limiter.inFlight, a) == At(old(limiter.inFlight), a)
                  - if !old(done) && a == app && At(old(limiter.inFlight), app) > 0 then 1 else 0
      ensures !old(done) && At(old(limiter.inFlight), app) <= 1 ==> app !in limiter.inFlight
      ensures limiter.total == old(limiter.total) - if old(done) then 0 else 1
    {
      if !done {
        done := true;
        var left := At(limiter.inFlight, app) - 1;
        limiter.inFlight := limiter.inFlight[app := left];
        if left <= 0 {
          limiter.inFlight := limiter.inFlight - {app};
        }
        limiter.total := limiter.total - 1;
        assert limiter.inFlight == Release(old(limiter.View()), app).inFlight;
      }
    }
  }
}
