/** The isolation condition is exact: where it fails, one app's load refuses another. */
module SlotSharing {
  import opened Sums
  import opened SlotRuns
  import Slots

  function Acquires(app: string, n: nat): seq<Event> {
    seq(n, i => Acquire(app))
  }

  lemma {:induction false} RunConcat(c: Slots.Config, s: State, a: seq<Event>, b: seq<Event>)
    ensures Run(c, s, a + b) == Run(c, Run(c, s, a), b)
    decreases |a|
  {
    if a == [] {
      assert a + b == b;
    } else {
      RunConcat(c, Step(c, s, a[0]), a[1..], b);
      assert (a + b)[1..] == a[1..] + b;
    }
  }

  lemma {:induction false} AnswersConcat(c: Slots.Config, s: State, a: seq<Event>, b: seq<Event>, app: string)
    ensures Answers(c, s, a + b, app) == Answers(c, s, a, app) + Answers(c, Run(c, s, a), b, app)
    decreases |a|
  {
    if a == [] {
      assert a + b == b;
    } else {
      AnswersConcat(c, Step(c, s, a[0]), a[1..], b, app);
      assert (a + b)[1..] == a[1..] + b;
    }
  }

  lemma {:induction false} ProjectConcat(a: seq<Event>, b: seq<Event>, app: string)
    ensures Project(a + b, app) == Project(a, app) + Project(b, app)
    decreases |a|
  {
    if a == [] {
      assert a + b == b;
    } else {
      ProjectConcat(a[1..], b, app);
      assert (a + b)[1..] == a[1..] + b;
    }
  }

  predicate Room(c: Slots.Config, s: State, app: string, n: nat) {
    && (At(c.ceilings, app) > 0 ==> At(s.slots.inFlight, app) + n <= At(c.ceilings, app))
    && (c.global > 0 ==> s.slots.total + n <= c.global)
  }

  /** Acquires within the limits are all granted. */
  lemma {:induction false} AcquireMany(c: Slots.Config, s: State, app: string, n: nat)
    requires Room(c, s, app, n)
    ensures
      var t := Run(c, s, Acquires(app, n));
      && t.slots.total == s.slots.total + n
      && At(t.slots.inFlight, app) == At(s.slots.inFlight, app) + n
      && forall x :: x != app ==> At(t.slots.inFlight, x) == At(s.slots.inFlight, x)
    decreases n
  {
    if n > 0 {
      assert Acquires(app, n)[1..] == Acquires(app, n - 1);
      AcquireMany(c, Step(c, s, Acquire(app)), app, n - 1);
    }
  }

  lemma {:induction false} ProjectAcquires(who: string, n: nat, app: string)
    ensures Project(Acquires(who, n), app) == if who == app then Acquires(who, n) else []
    decreases n
  {
    if n > 0 {
      assert Acquires(who, n) == [Acquire(who)] + Acquires(who, n - 1);
      ProjectAcquires(who, n - 1, app);
    }
  }

  ghost function Pick(ceilings: map<string, int>): (x: string)
    requires ceilings != map[]
    ensures x in ceilings
  {
    var x :| x in ceilings;
    x
  }

  /** Every app of `ceilings` claims up to its ceiling, until `room` slots are taken. */
  ghost function Fill(ceilings: map<string, int>, room: nat): seq<Event>
    requires Positive(ceilings)
    decreases |ceilings|
  {
    if ceilings == map[] then []
    else
      var x := Pick(ceilings);
      Acquires(x, Part(ceilings, x, room)) + Fill(ceilings - {x}, room - Part(ceilings, x, room))
  }

  ghost predicate Positive(ceilings: map<string, int>) {
    forall x :: x in ceilings ==> ceilings[x] > 0
  }

  function Part(ceilings: map<string, int>, x: string, room: nat): nat
    requires x in ceilings && ceilings[x] > 0
  {
    if ceilings[x] < room then ceilings[x] else room
  }

  lemma {:induction false} FillApps(ceilings: map<string, int>, room: nat, app: string)
    requires Positive(ceilings)
    ensures forall e :: e in Fill(ceilings, room) ==> e.app in ceilings
    ensures app !in ceilings ==> Project(Fill(ceilings, room), app) == []
    decreases |ceilings|
  {
    if ceilings != map[] {
      var x := Pick(ceilings);
      var n, rest := Part(ceilings, x, room), ceilings - {x};
      FillApps(rest, room - n, app);
      ProjectAcquires(x, n, app);
      ProjectConcat(Acquires(x, n), Fill(rest, room - n), app);
    }
  }

  /** None of the apps of `ceilings` holds a slot yet. */
  ghost predicate Fresh(c: Slots.Config, s: State, ceilings: map<string, int>) {
    forall x :: x in ceilings ==> At(c.ceilings, x) == ceilings[x] && At(s.slots.inFlight, x) == 0
  }

  lemma {:induction false} FillTakesRoom(c: Slots.Config, s: State, ceilings: map<string, int>, room: nat, app: string)
    requires Positive(ceilings) && Fresh(c, s, ceilings) && app !in ceilings
    requires c.global > 0 ==> s.slots.total + room <= c.global
    ensures
      var t := Run(c, s, Fill(ceilings, room));
      && t.slots.total == s.slots.total + (if Sum(ceilings) < room then Sum(ceilings) else room)
      && At(t.slots.inFlight, app) == At(s.slots.inFlight, app)
    decreases |ceilings|
  {
    if ceilings != map[] {
      var x := Pick(ceilings);
      var n, rest := Part(ceilings, x, room), ceilings - {x};
      AcquireMany(c, s, x, n);
      var mid := Run(c, s, Acquires(x, n));
      assert Fresh(c, mid, rest) && Positive(rest);
      assert mid.slots.total == s.slots.total + n && At(mid.slots.inFlight, app) == At(s.slots.inFlight, app);
      FillTakesRoom(c, mid, rest, room - n, app);
      RunConcat(c, s, Acquires(x, n), Fill(rest, room - n));
      TakenInParts(ceilings, x, room);
    }
  }

  lemma {:induction false} TakenInParts(ceilings: map<string, int>, x: string, room: nat)
    requires Positive(ceilings) && x in ceilings
    ensures
      var n, rest := Part(ceilings, x, room), Sum(ceilings - {x});
      n + (if rest < room - n then rest else room - n) == if Sum(ceilings) < room then Sum(ceilings) else room
  {
    SumWithout(ceilings, x);
    SumOfPositive(ceilings - {x});
  }

  lemma {:induction false} SumOfPositive(ceilings: map<string, int>)
    requires Positive(ceilings)
    ensures Sum(ceilings) >= 0
    decreases |ceilings|
  {
    if ceilings != map[] {
      var x :| x in ceilings;
      SumWithout(ceilings, x);
      SumOfPositive(ceilings - {x});
    }
  }

  /** `app` hears a different answer in `events` than in its own part of them. */
  ghost predicate Disturbed(c: Slots.Config, events: seq<Event>, app: string) {
    && Configured(c, events) && app in c.ceilings
    && Answers(c, Init(), events, app) != Answers(c, Init(), Project(events, app), app)
  }

  /** Others fill the cap; `app`, below its own ceiling, is then refused, though alone it would be served. */
  lemma {:induction false} FullCapDisturbs(c: Slots.Config, others: seq<Event>, own: nat, app: string)
    requires c.global > 0 && app in c.ceilings && Configured(c, others) && Project(others, app) == []
    requires
      var mid := Run(c, Init(), others);
      0 < mid.slots.total && mid.slots.total + own == c.global && At(mid.slots.inFlight, app) == 0
    requires c.ceilings[app] > 0 ==> own < c.ceilings[app]
    ensures Disturbed(c, others + Acquires(app, own) + [Acquire(app)], app)
  {
    var mine, last := Acquires(app, own), [Acquire(app)];
    var mid := Run(c, Init(), others);
    AcquireMany(c, mid, app, own);
    AcquireMany(c, Init(), app, own);
    RunConcat(c, Init(), others, mine);
    LastAnswer(c, others + mine, app);
    LastAnswer(c, mine, app);
    ProjectionIsOwn(others, own, app);
    LastAnswersDiffer(Answers(c, Init(), others + mine, app), Slots.Refused(c.global),
                      Answers(c, Init(), mine, app), Slots.Granted);
  }

  lemma {:induction false} LastAnswer(c: Slots.Config, events: seq<Event>, app: string)
    ensures Answers(c, Init(), events + [Acquire(app)], app)
         == Answers(c, Init(), events, app) + [Slots.Decide(c, Run(c, Init(), events).slots, app)]
  {
    var last := [Acquire(app)];
    AnswersConcat(c, Init(), events, last, app);
    assert last[1..] == [];
  }

  lemma {:induction false} ProjectionIsOwn(others: seq<Event>, own: nat, app: string)
    requires Project(others, app) == []
    ensures Project(others + Acquires(app, own) + [Acquire(app)], app) == Acquires(app, own) + [Acquire(app)]
  {
    var mine, last := Acquires(app, own), [Acquire(app)];
    ProjectConcat(others + mine, last, app);
    ProjectConcat(others, mine, app);
    ProjectAcquires(app, own, app);
    assert last[1..] == [];
    assert [] + mine == mine;
  }

  lemma {:induction false} LastAnswersDiffer(a: seq<Slots.Answer>, x: Slots.Answer, b: seq<Slots.Answer>, y: Slots.Answer)
    requires x != y
    ensures a + [x] != b + [y]
  {
    if |a| == |b| {
      assert (a + [x])[|a|] != (b + [y])[|b|];
    } else {
      assert |a + [x]| != |b + [y]|;
    }
  }

  /** With two apps, isolation holds in every run exactly when the ceilings fit under the cap. */
  lemma {:induction false} IsolationIsExact(c: Slots.Config)
    requires exists a, b :: a in c.ceilings && b in c.ceilings && a != b
    ensures Partitioned(c) <==> forall events, app :: !Disturbed(c, events, app)
  {
    var a, b :| a in c.ceilings && b in c.ceilings && a != b;
    if Partitioned(c) {
      forall events, app ensures !Disturbed(c, events, app) {
        if Configured(c, events) && app in c.ceilings {
          Isolation(c, events, app);
        }
      }
    } else if greedy :| greedy in c.ceilings && c.ceilings[greedy] <= 0 {
      UnlimitedDisturbs(c, greedy, if greedy == a then b else a);
    } else {
      OversubscribedDisturbs(c, a, b);
    }
  }

  lemma {:induction false} UnlimitedDisturbs(c: Slots.Config, greedy: string, app: string)
    requires c.global > 0 && greedy in c.ceilings && c.ceilings[greedy] <= 0 && app in c.ceilings && app != greedy
    ensures exists events :: Disturbed(c, events, app)
  {
    var others := Acquires(greedy, c.global);
    AcquireMany(c, Init(), greedy, c.global);
    ProjectAcquires(greedy, c.global, app);
    FullCapDisturbs(c, others, 0, app);
  }

  lemma {:induction false} OversubscribedDisturbs(c: Slots.Config, a: string, b: string)
    requires c.global > 0 && Sum(c.ceilings) > c.global && a in c.ceilings && b in c.ceilings && a != b
    requires Positive(c.ceilings)
    ensures exists events :: Disturbed(c, events, a)
  {
    var rest := c.ceilings - {a};
    SumWithout(c.ceilings, a);
    SumWithout(rest, b);
    FillTakesRoom(c, Init(), rest, c.global, a);
    FillApps(rest, c.global, a);
    SumOfPositive(rest - {b});
    var others := Fill(rest, c.global);
    forall i | 0 <= i < |others| ensures others[i].app in c.ceilings {
      assert others[i] in others;
    }
    FullCapDisturbs(c, others, c.global - Run(c, Init(), others).slots.total, a);
  }
}
