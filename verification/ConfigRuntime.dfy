/** From the file to the running gateway: every fault by its own words, every default, and what a policy lets happen. */
module ConfigRuntime {
  import opened Wrappers
  import opened Domain
  import opened Iteration
  import opened ConfigFile
  import Sorting
  import Chat
  import ChatProperties
  import FailoverPlan
  import RateLimits
  import Slots

  // ---- every reported error is true ----

  /** What each error says of the file. */
  ghost predicate Faulty(w: File, e: ConfigError) {
    var source := w.secretSource;
    match e
    case AuthInterval => w.authInterval < 0
    case RouteIncomplete(i) =>
      && i < |w.routes| && (w.routes[i].model == "" || w.routes[i].provider == "" || w.routes[i].endpoint == "")
      && forall k :: 0 <= k < i ==> w.routes[k].model != "" && w.routes[k].provider != "" && w.routes[k].endpoint != ""
    case SecretKindUnknown => source.kind != "" && source.kind != "file" && source.kind != "vault"
    case SecretKindMissing => source.kind == "" && source.providers != map[]
    case SecretInterval => source.refreshInterval < 0
    case VaultIncomplete => source.kind == "vault" && (source.vault.address == "" || source.vault.role == "")
    case VaultUnread =>
      source.kind != "vault" && (source.vault.address != "" || source.vault.role != "" || source.vault.authPath != "")
    case SecretPathMissing(p) => p in source.providers && source.providers[p].path == ""
    case SecretUnrouted(p) => p in source.providers && forall i :: 0 <= i < |w.routes| ==> w.routes[i].provider != p
    case ProviderInterval(p) => p in source.providers && source.providers[p].refreshInterval < 0
    case SubjectMissing(a) => a in w.apps && w.apps[a].subject == ""
    case SubjectTaken(a, owner) => a in w.apps && owner in w.apps && a != owner && w.apps[a].subject == w.apps[owner].subject
    case CeilingTooHigh(a) => a in w.apps && w.globalMaxInFlight > 0 && w.apps[a].limits.maxInFlight > w.globalMaxInFlight
    case PolicyUnknown(a) => a in w.apps && Unknown(w.apps[a].policy.kind)
    case AllowlistUnrouted(a, model) =>
      && a in w.apps && w.apps[a].policy.kind == "allowlist" && model in w.apps[a].policy.allowlist
      && forall i :: 0 <= i < |w.routes| ==> w.routes[i].model != model
  }

  predicate Unknown(kind: string) {
    kind != "" && kind != "same-model" && kind != "any" && kind != "allowlist"
  }

  lemma {:induction false} BadRouteIsTrue(w: File, routes: seq<RouteWire>)
    requires routes <= w.routes && FirstBadRoute(routes).Some?
    ensures Faulty(w, FirstBadRoute(routes).value)
  {
    var front := routes[..|routes| - 1];
    if FirstBadRoute(front).Some? {
      BadRouteIsTrue(w, front);
    } else {
      RoutesIff(front);
      assert forall k :: 0 <= k < |front| ==> RouteComplete(front[k]) && front[k] == w.routes[k];
    }
  }

  lemma {:induction false} SourceErrorIsTrue(w: File)
    ensures SourceError(w.secretSource).Some? ==> Faulty(w, SourceError(w.secretSource).value)
  {
    assert |w.secretSource.providers| == 0 <==> w.secretSource.providers == map[];
  }

  lemma {:induction false} SecretErrorIsTrue(w: File, names: seq<string>)
    requires forall k :: 0 <= k < |names| ==> names[k] in w.secretSource.providers
    requires FirstSecretError(w.secretSource.providers, names, RoutedProviders(w.routes)).Some?
    ensures Faulty(w, FirstSecretError(w.secretSource.providers, names, RoutedProviders(w.routes)).value)
  {
    var front, last := names[..|names| - 1], names[|names| - 1];
    if FirstSecretError(w.secretSource.providers, front, RoutedProviders(w.routes)).Some? {
      SecretErrorIsTrue(w, front);
    } else {
      assert last !in RoutedProviders(w.routes) ==> forall i :: 0 <= i < |w.routes| ==> w.routes[i].provider != last;
    }
  }

  lemma {:induction false} UnroutedIsListed(allowlist: seq<string>, routed: set<string>)
    ensures FirstUnrouted(allowlist, routed).Some? ==>
              FirstUnrouted(allowlist, routed).value in allowlist && FirstUnrouted(allowlist, routed).value !in routed
  {
    if allowlist != [] {
      UnroutedIsListed(allowlist[1..], routed);
    }
  }

  lemma {:induction false} OneAppErrorIsTrue(w: File, name: string, owner: Option<string>)
    requires name in w.apps
    requires owner.Some? ==> owner.value in w.apps && owner.value != name && w.apps[owner.value].subject == w.apps[name].subject
    requires AppError(w.apps[name], name, owner, RoutedModels(w.routes), w.globalMaxInFlight).Some?
    ensures Faulty(w, AppError(w.apps[name], name, owner, RoutedModels(w.routes), w.globalMaxInFlight).value)
  {
    var policy := PolicyOf(w.apps[name].policy);
    if policy.Some? {
      UnroutedIsListed(policy.value.allowlist, RoutedModels(w.routes));
      NotRouted(w.routes);
    }
  }

  lemma {:induction false} NotRouted(routes: seq<RouteWire>)
    ensures forall m :: m !in RoutedModels(routes) ==> forall i :: 0 <= i < |routes| ==> routes[i].model != m
  {
  }

  lemma {:induction false} AppErrorIsTrue(w: File, names: seq<string>)
    requires forall k :: 0 <= k < |names| ==> names[k] in w.apps
    requires forall j, k :: 0 <= j < k < |names| ==> names[j] != names[k]
    requires FirstAppError(w.apps, names, RoutedModels(w.routes), w.globalMaxInFlight).Some?
    ensures Faulty(w, FirstAppError(w.apps, names, RoutedModels(w.routes), w.globalMaxInFlight).value)
  {
    var front, last := names[..|names| - 1], names[|names| - 1];
    assert forall k :: 0 <= k < |front| ==> front[k] == names[k];
    if FirstAppError(w.apps, front, RoutedModels(w.routes), w.globalMaxInFlight).Some? {
      AppErrorIsTrue(w, front);
    } else {
      OwnerIff(w.apps, front, w.apps[last].subject);
      OneAppErrorIsTrue(w, last, Owner(w.apps, front, w.apps[last].subject));
    }
  }

  /** The error a boot reports is true of the file: it names a real offender, and the right thing about it. */
  lemma {:induction false} ReportedErrorIsTrue(w: File, secretWalk: seq<string>, appWalk: seq<string>, e: ConfigError)
    requires IterationOf(secretWalk, w.secretSource.providers) && IterationOf(appWalk, w.apps)
    requires Reported(w, secretWalk, appWalk, e)
    ensures Faulty(w, e)
  {
    SortedKeysIterate(secretWalk, w.secretSource.providers);
    SortedKeysIterate(appWalk, w.apps);
    var providers, apps := Sorting.Sort(Sorting.StringOrder(), secretWalk), Sorting.Sort(Sorting.StringOrder(), appWalk);
    IterationHasNoDuplicates(apps, w.apps);
    if FirstBadRoute(w.routes).Some? {
      BadRouteIsTrue(w, w.routes);
    }
    SourceErrorIsTrue(w);
    if FirstSecretError(w.secretSource.providers, providers, RoutedProviders(w.routes)).Some? {
      SecretErrorIsTrue(w, providers);
    }
    if FirstAppError(w.apps, apps, RoutedModels(w.routes), w.globalMaxInFlight).Some? {
      AppErrorIsTrue(w, apps);
    }
  }

  /** And the files that boot are those of which no error is true. */
  lemma {:induction false} BootsIffFaultless(w: File)
    ensures WellFormed(w) <==> forall e :: !Faulty(w, e)
  {
    if WellFormed(w) {
      forall e ensures !Faulty(w, e) {
        WellFormedIsFaultless(w, e);
      }
    }
    if forall e :: !Faulty(w, e) {
      FaultlessRoutes(w, |w.routes|);
      FaultlessSource(w);
      FaultlessApps(w);
    }
  }

  lemma {:induction false} WellFormedIsFaultless(w: File, e: ConfigError)
    requires WellFormed(w)
    ensures !Faulty(w, e)
  {
    match e
    case RouteIncomplete(i) => assert i < |w.routes| ==> RouteComplete(w.routes[i]);
    case SecretUnrouted(p) =>
      if p in w.secretSource.providers {
        assert SecretWellFormed(w.secretSource.providers[p], p, RoutedProviders(w.routes));
        var i :| 0 <= i < |w.routes| && w.routes[i].provider == p;
      }
    case SecretPathMissing(p) =>
      assert p in w.secretSource.providers ==> SecretWellFormed(w.secretSource.providers[p], p, RoutedProviders(w.routes));
    case ProviderInterval(p) =>
      assert p in w.secretSource.providers ==> SecretWellFormed(w.secretSource.providers[p], p, RoutedProviders(w.routes));
    case AllowlistUnrouted(a, model) =>
      if a in w.apps && w.apps[a].policy.kind == "allowlist" && model in w.apps[a].policy.allowlist {
        assert AppWellFormed(w.apps[a], RoutedModels(w.routes), w.globalMaxInFlight);
        var i :| 0 <= i < |w.routes| && w.routes[i].model == model;
      }
    case SubjectMissing(a) => assert a in w.apps ==> AppWellFormed(w.apps[a], RoutedModels(w.routes), w.globalMaxInFlight);
    case CeilingTooHigh(a) => assert a in w.apps ==> AppWellFormed(w.apps[a], RoutedModels(w.routes), w.globalMaxInFlight);
    case PolicyUnknown(a) => assert a in w.apps ==> AppWellFormed(w.apps[a], RoutedModels(w.routes), w.globalMaxInFlight);
    case _ =>
  }

  lemma {:induction false} FaultlessRoutes(w: File, n: nat)
    requires n <= |w.routes| && forall e :: !Faulty(w, e)
    ensures forall i :: 0 <= i < n ==> RouteComplete(w.routes[i])
  {
    if n > 0 {
      FaultlessRoutes(w, n - 1);
      assert !Faulty(w, RouteIncomplete(n - 1));
    }
  }

  lemma {:induction false} FaultlessSource(w: File)
    requires forall e :: !Faulty(w, e)
    ensures w.authInterval >= 0 && SourceWellFormed(w.secretSource)
    ensures forall p :: p in w.secretSource.providers ==>
              SecretWellFormed(w.secretSource.providers[p], p, RoutedProviders(w.routes))
  {
    assert !Faulty(w, AuthInterval) && !Faulty(w, SecretKindUnknown) && !Faulty(w, SecretKindMissing);
    assert !Faulty(w, SecretInterval) && !Faulty(w, VaultIncomplete) && !Faulty(w, VaultUnread);
    forall p | p in w.secretSource.providers
      ensures SecretWellFormed(w.secretSource.providers[p], p, RoutedProviders(w.routes))
    {
      assert !Faulty(w, SecretPathMissing(p)) && !Faulty(w, SecretUnrouted(p)) && !Faulty(w, ProviderInterval(p));
    }
  }

  lemma {:induction false} FaultlessApps(w: File)
    requires forall e :: !Faulty(w, e)
    ensures forall a :: a in w.apps ==> AppWellFormed(w.apps[a], RoutedModels(w.routes), w.globalMaxInFlight)
    ensures forall a, b :: a in w.apps && b in w.apps && a != b ==> w.apps[a].subject != w.apps[b].subject
  {
    forall a | a in w.apps ensures AppWellFormed(w.apps[a], RoutedModels(w.routes), w.globalMaxInFlight) {
      assert !Faulty(w, SubjectMissing(a)) && !Faulty(w, CeilingTooHigh(a)) && !Faulty(w, PolicyUnknown(a));
      forall m | w.apps[a].policy.kind == "allowlist" && m in w.apps[a].policy.allowlist ensures m in RoutedModels(w.routes) {
        assert !Faulty(w, AllowlistUnrouted(a, m));
      }
    }
    forall a, b | a in w.apps && b in w.apps && a != b ensures w.apps[a].subject != w.apps[b].subject {
      assert !Faulty(w, SubjectTaken(a, b));
    }
  }

  // ---- ... and is the first there is ----

  /** How early a boot looks for it: the block's cadence, the routes, the secret source, its providers, the apps. */
  function Stage(e: ConfigError): nat {
    match e
    case AuthInterval => 0
    case RouteIncomplete(_) => 1
    case SecretKindUnknown => 2
    case SecretKindMissing => 3
    case SecretInterval => 4
    case VaultIncomplete | VaultUnread => 5
    case SecretPathMissing(_) | SecretUnrouted(_) | ProviderInterval(_) => 6
    case _ => 7
  }

  /** Whose fault it is. */
  function About(e: ConfigError): string {
    match e
    case SecretPathMissing(p) => p
    case SecretUnrouted(p) => p
    case ProviderInterval(p) => p
    case SubjectMissing(a) => a
    case SubjectTaken(a, _) => a
    case CeilingTooHigh(a) => a
    case PolicyUnknown(a) => a
    case AllowlistUnrouted(a, _) => a
    case _ => ""
  }

  /** The order of the checks on one provider or one app. */
  function Detail(e: ConfigError): nat {
    match e
    case SecretUnrouted(_) | SubjectTaken(_, _) => 1
    case ProviderInterval(_) | CeilingTooHigh(_) => 2
    case PolicyUnknown(_) => 3
    case AllowlistUnrouted(_, _) => 4
    case _ => 0
  }

  /** `e` is met no later than `other`: at an earlier stage, under an earlier name, or by an earlier check. */
  predicate NoLater(e: ConfigError, other: ConfigError) {
    || Stage(e) < Stage(other)
    || (Stage(e) == Stage(other) && About(e) != About(other) && Sorting.StringLeq(About(e), About(other)))
    || (Stage(e) == Stage(other) && About(e) == About(other) && Detail(e) <= Detail(other))
  }

  ghost predicate InOrder(names: seq<string>) {
    forall i, j :: 0 <= i < j < |names| ==> names[i] != names[j] && Sorting.StringLeq(names[i], names[j])
  }

  lemma {:induction false} SecretErrorComesFirst(w: File, names: seq<string>, other: ConfigError)
    requires InOrder(names) && forall k :: 0 <= k < |names| ==> names[k] in w.secretSource.providers
    requires Stage(other) == 6 && About(other) in names && Faulty(w, other)
    ensures
      var e := FirstSecretError(w.secretSource.providers, names, RoutedProviders(w.routes));
      e.Some? && Stage(e.value) == 6 && About(e.value) in names && NoLater(e.value, other)
  {
    var front, last := names[..|names| - 1], names[|names| - 1];
    assert names == front + [last];
    assert InOrder(front);
    RoutedByNobody(w.routes);
    if About(other) in front {
      SecretErrorComesFirst(w, front, other);
    } else {
      SecretsIff(w.secretSource.providers, front, RoutedProviders(w.routes));
      SecretErrorIsAmong(w.secretSource.providers, front, RoutedProviders(w.routes));
    }
  }

  lemma {:induction false} RoutedByNobody(routes: seq<RouteWire>)
    ensures forall p :: (forall i :: 0 <= i < |routes| ==> routes[i].provider != p) ==> p !in RoutedProviders(routes)
    ensures forall m :: (forall i :: 0 <= i < |routes| ==> routes[i].model != m) ==> m !in RoutedModels(routes)
  {
  }

  lemma {:induction false} SecretErrorIsAmong(providers: map<string, ProviderSecret>, names: seq<string>, routed: set<string>)
    requires forall k :: 0 <= k < |names| ==> names[k] in providers
    ensures
      var e := FirstSecretError(providers, names, routed);
      e.Some? ==> Stage(e.value) == 6 && About(e.value) in names
  {
    if names != [] {
      SecretErrorIsAmong(providers, names[..|names| - 1], routed);
    }
  }

  lemma {:induction false} AppErrorIsAmong(w: File, names: seq<string>)
    requires forall k :: 0 <= k < |names| ==> names[k] in w.apps
    ensures
      var e := FirstAppError(w.apps, names, RoutedModels(w.routes), w.globalMaxInFlight);
      e.Some? ==> Stage(e.value) == 7 && About(e.value) in names
  {
    if names != [] {
      AppErrorIsAmong(w, names[..|names| - 1]);
    }
  }

  /** A fault of one app's own is met no later than its check. */
  lemma {:induction false} OwnErrorComesFirst(w: File, name: string, owner: Option<string>, other: ConfigError)
    requires name in w.apps && Stage(other) == 7 && About(other) == name && !other.SubjectTaken? && Faulty(w, other)
    ensures
      var e := AppError(w.apps[name], name, owner, RoutedModels(w.routes), w.globalMaxInFlight);
      e.Some? && Stage(e.value) == 7 && About(e.value) == name && Detail(e.value) <= Detail(other)
  {
    RoutedByNobody(w.routes);
    if other.AllowlistUnrouted? {
      UnroutedIff(w.apps[name].policy.allowlist, RoutedModels(w.routes));
    }
  }

  lemma {:induction false} AppErrorComesFirst(w: File, names: seq<string>, other: ConfigError)
    requires InOrder(names) && forall k :: 0 <= k < |names| ==> names[k] in w.apps
    requires Stage(other) == 7 && About(other) in names && !other.SubjectTaken? && Faulty(w, other)
    ensures
      var e := FirstAppError(w.apps, names, RoutedModels(w.routes), w.globalMaxInFlight);
      e.Some? && Stage(e.value) == 7 && About(e.value) in names && NoLater(e.value, other)
  {
    var front, last := names[..|names| - 1], names[|names| - 1];
    assert names == front + [last];
    assert InOrder(front);
    AppErrorIsAmong(w, front);
    if About(other) in front {
      AppErrorComesFirst(w, front, other);
    } else {
      OwnErrorComesFirst(w, last, Owner(w.apps, front, w.apps[last].subject), other);
    }
  }

  /** A later stage is only reported when no earlier one has anything to say. */
  lemma {:induction false} StagesInTurn(w: File, providers: seq<string>, apps: seq<string>, e: ConfigError)
    requires forall k :: 0 <= k < |providers| ==> providers[k] in w.secretSource.providers
    requires forall k :: 0 <= k < |apps| ==> apps[k] in w.apps
    requires FirstError(w, providers, apps) == Some(e)
    ensures w.authInterval < 0 ==> Stage(e) == 0
    ensures FirstBadRoute(w.routes).Some? ==> Stage(e) <= 1
    ensures SourceError(w.secretSource).Some? ==> Stage(e) <= Stage(SourceError(w.secretSource).value)
    ensures
      var secret := FirstSecretError(w.secretSource.providers, providers, RoutedProviders(w.routes));
      secret.Some? ==> Stage(e) < 6 || e == secret.value
    ensures
      var app := FirstAppError(w.apps, apps, RoutedModels(w.routes), w.globalMaxInFlight);
      app.Some? ==> Stage(e) < 7 || e == app.value
  {
    BadRouteIsARoute(w.routes);
    SecretErrorIsAmong(w.secretSource.providers, providers, RoutedProviders(w.routes));
    AppErrorIsAmong(w, apps);
  }

  /** Of all that is wrong with a file, the boot reports what comes first: by stage, by name, by check. */
  lemma {:induction false} ReportedErrorIsFirst(w: File, secretWalk: seq<string>, appWalk: seq<string>, e: ConfigError, other: ConfigError)
    requires IterationOf(secretWalk, w.secretSource.providers) && IterationOf(appWalk, w.apps)
    requires Reported(w, secretWalk, appWalk, e)
    requires Faulty(w, other) && !other.SubjectTaken?
    ensures NoLater(e, other)
  {
    var providers, apps := Sorting.Sort(Sorting.StringOrder(), secretWalk), Sorting.Sort(Sorting.StringOrder(), appWalk);
    NamesInOrder(secretWalk, w.secretSource.providers);
    NamesInOrder(appWalk, w.apps);
    StagesInTurn(w, providers, apps, e);
    if Stage(other) == 6 {
      SecretErrorComesFirst(w, providers, other);
    } else if Stage(other) == 7 {
      AppErrorComesFirst(w, apps, other);
    } else {
      EarlyErrorComesFirst(w, other);
    }
  }

  lemma {:induction false} BadRouteIsARoute(routes: seq<RouteWire>)
    ensures FirstBadRoute(routes).Some? ==> FirstBadRoute(routes).value.RouteIncomplete?
  {
    if routes != [] {
      BadRouteIsARoute(routes[..|routes| - 1]);
    }
  }

  lemma {:induction false} EarlyErrorComesFirst(w: File, other: ConfigError)
    requires Faulty(w, other) && Stage(other) <= 5
    ensures other.AuthInterval? ==> w.authInterval < 0
    ensures other.RouteIncomplete? ==> FirstBadRoute(w.routes).Some?
    ensures Stage(other) >= 2 ==> SourceError(w.secretSource).Some? && Stage(SourceError(w.secretSource).value) <= Stage(other)
  {
    RoutesIff(w.routes);
    if other.RouteIncomplete? {
      assert !RouteComplete(w.routes[other.index]);
    }
    assert |w.secretSource.providers| == 0 <==> w.secretSource.providers == map[];
  }

  lemma {:induction false} NamesInOrder<V>(walk: seq<string>, m: map<string, V>)
    requires IterationOf(walk, m)
    ensures
      var names := Sorting.Sort(Sorting.StringOrder(), walk);
      InOrder(names) && forall p :: p in names <==> p in m
  {
    SortedKeysIterate(walk, m);
    var names := Sorting.Sort(Sorting.StringOrder(), walk);
    IterationHasNoDuplicates(names, m);
    IterationCoversKeys(names, m);
    Sorting.StringOrderIsTotal();
    Sorting.SortIsSortedPermutation(Sorting.StringOrder(), walk);
    forall i, j | 0 <= i < j < |names| ensures Sorting.StringLeq(names[i], names[j]) {
      assert Sorting.StringOrder()(names[i], names[j]);
    }
  }

  // ---- what is loaded ----

  /** The app the file names, as the gateway knows it. */
  function AppOf(w: File, c: Config, a: string): App
    requires Loaded(w, c) && a in w.apps
  {
    c.apps[w.apps[a].subject]
  }

  /** An app is loaded under its name and deadline, with exactly the policy the file declares; declaring none is same-model. */
  lemma {:induction false} PolicyAsDeclared(w: File, c: Config, a: string)
    requires WellFormed(w) && Loaded(w, c) && a in w.apps
    ensures
      var app, declared := AppOf(w, c, a), w.apps[a].policy;
      && app.name == a && app.totalDeadline == w.apps[a].totalDeadline
      && (app.policy.kind == AnyModel <==> declared.kind == "any")
      && (app.policy.kind == Allowlist <==> declared.kind == "allowlist")
      && (app.policy.kind == SameModel <==> declared.kind == "" || declared.kind == "same-model")
      && app.policy.allowlist == (if declared.kind == "allowlist" then declared.allowlist else [])
  {
    assert AppWellFormed(w.apps[a], RoutedModels(w.routes), w.globalMaxInFlight);
  }

  /** The interval in force: what is set closest, and five minutes when nothing is. */
  function InForce(own: int, block: int): int {
    if own != 0 then own else if block != 0 then block else 300_000_000_000
  }

  /** Everything else the gateway runs on, field by field, with the defaults an absent field gets. */
  lemma {:induction false} LoadedAsWritten(w: File, c: Config)
    requires Loaded(w, c)
    ensures |c.table| == |w.routes|
    ensures forall i :: 0 <= i < |w.routes| ==>
              && c.table[i].model == w.routes[i].model && c.table[i].provider == w.routes[i].provider
              && c.table[i].endpoint == w.routes[i].endpoint
    ensures c.failoverOrder == w.failoverOrder && c.globalMaxInFlight == w.globalMaxInFlight && c.carried == w.carried
    ensures forall a :: a in w.apps ==>
              && a in c.limits && c.limits[a].rps == w.apps[a].limits.rps
              && c.limits[a].tokensPerMinute == w.apps[a].limits.tokensPerMinute
              && c.limits[a].maxInFlight == w.apps[a].limits.maxInFlight
    ensures c.refreshInterval == InForce(0, w.authInterval)
    ensures forall p :: p in w.secretSource.providers ==>
              && p in c.secrets.providers && c.secrets.providers[p].path == w.secretSource.providers[p].path
              && c.secrets.providers[p].refreshInterval
                   == InForce(w.secretSource.providers[p].refreshInterval, w.secretSource.refreshInterval)
    ensures
      var vault, declared := c.secrets.vault, w.secretSource.vault;
      && c.secrets.kind == w.secretSource.kind && vault.address == declared.address && vault.role == declared.role
      && vault.authPath
           == if w.secretSource.kind == "vault" && declared.authPath == "" then "auth/kubernetes" else declared.authPath
  {
  }

  // ---- what a policy lets happen ----

  /**
   * Substitution is opt-in: an app whose file names no policy, or same-model, is only ever
   * answered with the model it asked for, and no other model is even tried for it.
   */
  lemma {:induction false} SubstitutionIsOptIn(
    w: File, c: Config, a: string, req: ChatRequest, allow: RateLimits.Verdict, check: RateLimits.Verdict,
    slot: Slots.Answer, script: nat -> Chat.Attempt)
    requires WellFormed(w) && Loaded(w, c) && a in w.apps
    requires w.apps[a].policy.kind == "" || w.apps[a].policy.kind == "same-model"
    ensures
      var o := Chat.Respond(Some(AppOf(w, c, a)), req, allow, check, slot, c.table, c.failoverOrder, script);
      && (forall k :: 0 <= k < |o.contacted| ==> o.contacted[k].model == req.model)
      && (o.answer.Ok? ==> o.answer.value.model == req.model && !o.answer.value.substituted)
  {
    PolicyAsDeclared(w, c, a);
    var app := AppOf(w, c, a);
    ChatProperties.SameModelNeverSubstitutes(app, req, allow, check, slot, c.table, c.failoverOrder, script);
    ChatProperties.ContactsFollowPolicy(app, req, allow, check, slot, c.table, c.failoverOrder, script);
  }

  /** An app with an allowlist is only ever answered with the model it asked for or one its file lists. */
  lemma {:induction false} OnlyListedSubstitutes(
    w: File, c: Config, a: string, req: ChatRequest, allow: RateLimits.Verdict, check: RateLimits.Verdict,
    slot: Slots.Answer, script: nat -> Chat.Attempt)
    requires WellFormed(w) && Loaded(w, c) && a in w.apps && w.apps[a].policy.kind == "allowlist"
    ensures
      var o := Chat.Respond(Some(AppOf(w, c, a)), req, allow, check, slot, c.table, c.failoverOrder, script);
      o.answer.Ok? ==> o.answer.value.model == req.model || o.answer.value.model in w.apps[a].policy.allowlist
  {
    PolicyAsDeclared(w, c, a);
    ChatProperties.PolicyFidelity(AppOf(w, c, a), req, allow, check, slot, c.table, c.failoverOrder, script);
  }
}
