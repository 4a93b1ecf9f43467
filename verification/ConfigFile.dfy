/** The configuration file: which files boot the gateway, and what the runtime may then assume. */
module ConfigFile {
  import opened Wrappers
  import opened Domain
  import opened Iteration
  import opened Sorting
  import FailoverPlan
  import PlanProperties
  import Windows

  // ---- the file ----

  datatype RouteWire = RouteWire(model: string, provider: string, endpoint: string)

  datatype AppLimits = AppLimits(rps: int, tokensPerMinute: int, maxInFlight: int)

  datatype PolicyWire = PolicyWire(kind: string, allowlist: seq<string>)

  datatype AppWire = AppWire(subject: string, totalDeadline: int, limits: AppLimits, policy: PolicyWire)

  datatype Vault = Vault(address: string, role: string, authPath: string)

  datatype ProviderSecret = ProviderSecret(path: string, refreshInterval: int)

  /** Both the file's block and what it becomes. */
  datatype SecretSource = SecretSource(kind: string, refreshInterval: int, vault: Vault, providers: map<string, ProviderSecret>)

  /** Where the gateway listens, and its HTTP limits. */
  datatype Server = Server(
    listen: string, maxBodyBytes: int, readHeaderTimeout: int, readTimeout: int, writeTimeout: int, idleTimeout: int)

  datatype Deadlines = Deadlines(total: int, perTry: int)

  datatype Auth = Auth(issuer: string, audience: string, jwksUrl: string)

  datatype Redis = Redis(addr: string, tls: bool, caPath: string, passwordPath: string)

  /** What is carried over as it stands. */
  datatype Carried = Carried(server: Server, deadlines: Deadlines, auth: Auth, redis: Redis, otlpEndpoint: string)

  datatype File = File(
    authInterval: int, routes: seq<RouteWire>, failoverOrder: seq<string>, apps: map<string, AppWire>,
    globalMaxInFlight: int, secretSource: SecretSource, carried: Carried)

  // ---- what it becomes ----

  datatype Secrets = Secrets(kind: string, vault: Vault, providers: map<string, ProviderSecret>)

  datatype Config = Config(
    table: FailoverPlan.Table, failoverOrder: seq<string>, apps: map<string, App>, limits: map<string, AppLimits>,
    globalMaxInFlight: int, refreshInterval: int, secrets: Secrets, carried: Carried)

  datatype ConfigError =
    | AuthInterval
    | RouteIncomplete(index: nat)
    | SecretKindUnknown
    | SecretKindMissing
    | SecretInterval
    | VaultIncomplete
    | VaultUnread
    | SecretPathMissing(provider: string)
    | SecretUnrouted(provider: string)
    | ProviderInterval(provider: string)
    | SubjectMissing(app: string)
    | SubjectTaken(app: string, owner: string)
    | CeilingTooHigh(app: string)
    | PolicyUnknown(app: string)
    | AllowlistUnrouted(app: string, model: string)

  const DEFAULT_REFRESH_INTERVAL := 300 * Windows.SECOND
  const DEFAULT_VAULT_AUTH_PATH := "auth/kubernetes"

  // ---- well-formedness, stated declaratively ----

  predicate RouteComplete(r: RouteWire) {
    r.model != "" && r.provider != "" && r.endpoint != ""
  }

  function RoutedModels(routes: seq<RouteWire>): set<string> {
    set i | 0 <= i < |routes| :: routes[i].model
  }

  function RoutedProviders(routes: seq<RouteWire>): set<string> {
    set i | 0 <= i < |routes| :: routes[i].provider
  }

  function PolicyOf(p: PolicyWire): Option<FailoverPolicy> {
    if p.kind == "" || p.kind == "same-model" then Some(FailoverPolicy(SameModel, []))
    else if p.kind == "any" then Some(FailoverPolicy(AnyModel, []))
    else if p.kind == "allowlist" then Some(FailoverPolicy(Allowlist, p.allowlist))
    else None
  }

  predicate SourceWellFormed(s: SecretSource) {
    && s.kind in ["", "file", "vault"]
    && (s.kind == "" ==> s.providers == map[])
    && s.refreshInterval >= 0
    && (if s.kind == "vault" then s.vault.address != "" && s.vault.role != "" else s.vault == Vault("", "", ""))
  }

  predicate SecretWellFormed(p: ProviderSecret, provider: string, routed: set<string>) {
    p.path != "" && provider in routed && p.refreshInterval >= 0
  }

  predicate AppWellFormed(a: AppWire, routed: set<string>, globalMaxInFlight: int) {
    && a.subject != ""
    && (globalMaxInFlight > 0 ==> a.limits.maxInFlight <= globalMaxInFlight)
    && PolicyOf(a.policy).Some?
    && (a.policy.kind == "allowlist" ==> forall m :: m in a.policy.allowlist ==> m in routed)
  }

  /** The files that boot the gateway. */
  ghost predicate WellFormed(w: File) {
    && w.authInterval >= 0
    && (forall i :: 0 <= i < |w.routes| ==> RouteComplete(w.routes[i]))
    && SourceWellFormed(w.secretSource)
    && (forall p :: p in w.secretSource.providers ==>
          SecretWellFormed(w.secretSource.providers[p], p, RoutedProviders(w.routes)))
    && (forall a :: a in w.apps ==> AppWellFormed(w.apps[a], RoutedModels(w.routes), w.globalMaxInFlight))
    && (forall a, b :: a in w.apps && b in w.apps && a != b ==> w.apps[a].subject != w.apps[b].subject)
  }

  // ---- the first error, given the names in order ----

  function FirstBadRoute(routes: seq<RouteWire>): Option<ConfigError> {
    if routes == [] then None
    else
      var front := |routes| - 1;
      match FirstBadRoute(routes[..front])
      case Some(e) => Some(e)
      case None => if RouteComplete(routes[front]) then None else Some(RouteIncomplete(front))
  }

  function SourceError(s: SecretSource): Option<ConfigError> {
    if s.kind !in ["", "file", "vault"] then Some(SecretKindUnknown)
    else if s.kind == "" && |s.providers| > 0 then Some(SecretKindMissing)
    else if s.refreshInterval < 0 then Some(SecretInterval)
    else if s.kind == "vault" && (s.vault.address == "" || s.vault.role == "") then Some(VaultIncomplete)
    else if s.kind != "vault" && s.vault != Vault("", "", "") then Some(VaultUnread)
    else None
  }

  function SecretError(p: ProviderSecret, provider: string, routed: set<string>): Option<ConfigError> {
    if p.path == "" then Some(SecretPathMissing(provider))
    else if provider !in routed then Some(SecretUnrouted(provider))
    else if p.refreshInterval < 0 then Some(ProviderInterval(provider))
    else None
  }

  function FirstSecretError(providers: map<string, ProviderSecret>, names: seq<string>, routed: set<string>): Option<ConfigError>
    requires forall k :: 0 <= k < |names| ==> names[k] in providers
  {
    if names == [] then None
    else
      var last := names[|names| - 1];
      match FirstSecretError(providers, names[..|names| - 1], routed)
      case Some(e) => Some(e)
      case None => SecretError(providers[last], last, routed)
  }

  /** Whose the subject already is, among the apps named. */
  function Owner(apps: map<string, AppWire>, names: seq<string>, subject: string): Option<string>
    requires forall k :: 0 <= k < |names| ==> names[k] in apps
  {
    if names == [] then None
    else
      var last := names[|names| - 1];
      if apps[last].subject == subject then Some(last) else Owner(apps, names[..|names| - 1], subject)
  }

  function FirstUnrouted(allowlist: seq<string>, routed: set<string>): Option<string> {
    if allowlist == [] then None
    else if allowlist[0] !in routed then Some(allowlist[0])
    else FirstUnrouted(allowlist[1..], routed)
  }

  /** What is wrong with an app, given whose its subject already is. */
  function AppError(a: AppWire, name: string, owner: Option<string>, routed: set<string>, globalMaxInFlight: int): Option<ConfigError> {
    if a.subject == "" then Some(SubjectMissing(name))
    else if owner.Some? then Some(SubjectTaken(name, owner.value))
    else if globalMaxInFlight > 0 && a.limits.maxInFlight > globalMaxInFlight then Some(CeilingTooHigh(name))
    else
      match PolicyOf(a.policy)
      case None => Some(PolicyUnknown(name))
      case Some(policy) =>
        match FirstUnrouted(policy.allowlist, routed)
        case Some(model) => Some(AllowlistUnrouted(name, model))
        case None => None
  }

  function FirstAppError(apps: map<string, AppWire>, names: seq<string>, routed: set<string>, globalMaxInFlight: int): Option<ConfigError>
    requires forall k :: 0 <= k < |names| ==> names[k] in apps
  {
    if names == [] then None
    else
      var front, last := names[..|names| - 1], names[|names| - 1];
      match FirstAppError(apps, front, routed, globalMaxInFlight)
      case Some(e) => Some(e)
      case None => AppError(apps[last], last, Owner(apps, front, apps[last].subject), routed, globalMaxInFlight)
  }

  /** The error a boot reports: interval, routes, secret source, then the apps. */
  function FirstError(w: File, providers: seq<string>, apps: seq<string>): Option<ConfigError>
    requires forall k :: 0 <= k < |providers| ==> providers[k] in w.secretSource.providers
    requires forall k :: 0 <= k < |apps| ==> apps[k] in w.apps
  {
    if w.authInterval < 0 then Some(AuthInterval)
    else if FirstBadRoute(w.routes).Some? then FirstBadRoute(w.routes)
    else if SourceError(w.secretSource).Some? then SourceError(w.secretSource)
    else
      match FirstSecretError(w.secretSource.providers, providers, RoutedProviders(w.routes))
      case Some(e) => Some(e)
      case None => FirstAppError(w.apps, apps, RoutedModels(w.routes), w.globalMaxInFlight)
  }

  // ---- no error exactly when well formed ----

  lemma {:induction false} RoutesIff(routes: seq<RouteWire>)
    ensures FirstBadRoute(routes).None? <==> forall i :: 0 <= i < |routes| ==> RouteComplete(routes[i])
  {
    if routes != [] {
      RoutesIff(routes[..|routes| - 1]);
    }
  }

  lemma {:induction false} SecretsIff(providers: map<string, ProviderSecret>, names: seq<string>, routed: set<string>)
    requires forall k :: 0 <= k < |names| ==> names[k] in providers
    ensures FirstSecretError(providers, names, routed).None?
       <==> forall k :: 0 <= k < |names| ==> SecretWellFormed(providers[names[k]], names[k], routed)
  {
    if names != [] {
      SecretsIff(providers, names[..|names| - 1], routed);
    }
  }

  lemma {:induction false} UnroutedIff(allowlist: seq<string>, routed: set<string>)
    ensures FirstUnrouted(allowlist, routed).None? <==> forall m :: m in allowlist ==> m in routed
  {
    if allowlist != [] {
      UnroutedIff(allowlist[1..], routed);
      assert forall m :: m in allowlist <==> m == allowlist[0] || m in allowlist[1..];
    }
  }

  lemma {:induction false} OwnerIff(apps: map<string, AppWire>, names: seq<string>, subject: string)
    requires forall k :: 0 <= k < |names| ==> names[k] in apps
    ensures Owner(apps, names, subject).None? <==> forall k :: 0 <= k < |names| ==> apps[names[k]].subject != subject
    ensures Owner(apps, names, subject).Some? ==>
              Owner(apps, names, subject).value in names && apps[Owner(apps, names, subject).value].subject == subject
  {
    if names != [] {
      OwnerIff(apps, names[..|names| - 1], subject);
    }
  }

  lemma {:induction false} AppIff(a: AppWire, name: string, owner: Option<string>, routed: set<string>, globalMaxInFlight: int)
    ensures AppError(a, name, owner, routed, globalMaxInFlight).None? <==> owner.None? && AppWellFormed(a, routed, globalMaxInFlight)
  {
    UnroutedIff(if PolicyOf(a.policy).Some? then PolicyOf(a.policy).value.allowlist else [], routed);
  }

  lemma {:induction false} AppsIff(apps: map<string, AppWire>, names: seq<string>, routed: set<string>, globalMaxInFlight: int)
    requires forall k :: 0 <= k < |names| ==> names[k] in apps
    ensures FirstAppError(apps, names, routed, globalMaxInFlight).None? <==>
              (forall k :: 0 <= k < |names| ==> AppWellFormed(apps[names[k]], routed, globalMaxInFlight))
              && (forall j, k :: 0 <= j < k < |names| ==> apps[names[j]].subject != apps[names[k]].subject)
  {
    if names != [] {
      var front, last := names[..|names| - 1], names[|names| - 1];
      assert forall k :: 0 <= k < |front| ==> front[k] == names[k];
      AppsIff(apps, front, routed, globalMaxInFlight);
      AppIff(apps[last], last, Owner(apps, front, apps[last].subject), routed, globalMaxInFlight);
      OwnerIff(apps, front, apps[last].subject);
    }
  }

  /** With the names of every provider and every app, no error is found exactly in a well-formed file. */
  lemma {:induction false} NoErrorIffWellFormed(w: File, providers: seq<string>, apps: seq<string>)
    requires IterationOf(providers, w.secretSource.providers) && IterationOf(apps, w.apps)
    ensures (forall k :: 0 <= k < |providers| ==> providers[k] in w.secretSource.providers)
    ensures (forall k :: 0 <= k < |apps| ==> apps[k] in w.apps)
    ensures FirstError(w, providers, apps).None? <==> WellFormed(w)
  {
    AllNamed(providers, w.secretSource.providers);
    AllNamed(apps, w.apps);
    RoutesIff(w.routes);
    SourceIff(w.secretSource);
    EverySecretIff(w.secretSource.providers, providers, RoutedProviders(w.routes));
    EveryAppIff(w.apps, apps, RoutedModels(w.routes), w.globalMaxInFlight);
  }

  lemma {:induction false} AllNamed<V>(names: seq<string>, m: map<string, V>)
    requires IterationOf(names, m)
    ensures forall k :: 0 <= k < |names| ==> names[k] in m
  {
    IterationCoversKeys(names, m);
    assert forall k :: 0 <= k < |names| ==> names[k] in names;
  }

  lemma {:induction false} EverySecretIff(providers: map<string, ProviderSecret>, names: seq<string>, routed: set<string>)
    requires IterationOf(names, providers) && forall k :: 0 <= k < |names| ==> names[k] in providers
    ensures FirstSecretError(providers, names, routed).None?
       <==> forall p :: p in providers ==> SecretWellFormed(providers[p], p, routed)
  {
    IterationCoversKeys(names, providers);
    SecretsIff(providers, names, routed);
    assert forall p :: p in providers ==> p in names;
  }

  lemma {:induction false} EveryAppIff(apps: map<string, AppWire>, names: seq<string>, routed: set<string>, globalMaxInFlight: int)
    requires IterationOf(names, apps) && forall k :: 0 <= k < |names| ==> names[k] in apps
    ensures FirstAppError(apps, names, routed, globalMaxInFlight).None? <==>
              (forall a :: a in apps ==> AppWellFormed(apps[a], routed, globalMaxInFlight))
              && (forall a, b :: a in apps && b in apps && a != b ==> apps[a].subject != apps[b].subject)
  {
    IterationCoversKeys(names, apps);
    AppsIff(apps, names, routed, globalMaxInFlight);
    DistinctSubjects(apps, names);
    assert forall a :: a in apps ==> a in names;
  }

  lemma {:induction false} SourceIff(s: SecretSource)
    ensures SourceError(s).None? <==> SourceWellFormed(s)
  {
    assert |s.providers| == 0 <==> s.providers == map[];
  }

  /** Subjects differ between any two names exactly when they differ between any two positions of a full list of them. */
  lemma {:induction false} DistinctSubjects(apps: map<string, AppWire>, names: seq<string>)
    requires IterationOf(names, apps) && forall k :: 0 <= k < |names| ==> names[k] in apps
    ensures (forall j, k :: 0 <= j < k < |names| ==> apps[names[j]].subject != apps[names[k]].subject)
       <==> (forall a, b :: a in apps && b in apps && a != b ==> apps[a].subject != apps[b].subject)
  {
    IterationCoversKeys(names, apps);
    IterationHasNoDuplicates(names, apps);
    if forall j, k :: 0 <= j < k < |names| ==> apps[names[j]].subject != apps[names[k]].subject {
      forall a, b | a in apps && b in apps && a != b ensures apps[a].subject != apps[b].subject {
        assert a in names && b in names;
        var j :| 0 <= j < |names| && names[j] == a;
        var k :| 0 <= k < |names| && names[k] == b;
        assert j < k || k < j;
      }
    }
  }

  // ---- what an accepted file becomes ----

  function OrDefault(interval: int, default_: int): int {
    if interval == 0 then default_ else interval
  }

  function VaultOf(s: SecretSource): Vault {
    if s.kind == "vault" && s.vault.authPath == "" then s.vault.(authPath := DEFAULT_VAULT_AUTH_PATH) else s.vault
  }

  function SecretOf(p: ProviderSecret, blockInterval: int): ProviderSecret {
    ProviderSecret(p.path, OrDefault(p.refreshInterval, blockInterval))
  }

  function RowOf(r: RouteWire): ModelProvider {
    ModelProvider(r.model, r.provider, r.endpoint)
  }

  predicate TableLoaded(routes: seq<RouteWire>, table: FailoverPlan.Table) {
    |table| == |routes| && forall i :: 0 <= i < |routes| ==> table[i] == RowOf(routes[i])
  }

  predicate SecretsLoaded(s: SecretSource, secrets: Secrets) {
    && secrets.kind == s.kind && secrets.vault == VaultOf(s)
    && secrets.providers.Keys == s.providers.Keys
    && forall p :: p in s.providers ==>
         secrets.providers[p] == SecretOf(s.providers[p], OrDefault(s.refreshInterval, DEFAULT_REFRESH_INTERVAL))
  }

  /** Each app is found under its subject, and nothing else is. */
  ghost predicate AppsLoaded(wire: map<string, AppWire>, apps: map<string, App>) {
    && (forall a :: a in wire ==>
          wire[a].subject in apps && PolicyOf(wire[a].policy).Some?
          && apps[wire[a].subject] == App(a, PolicyOf(wire[a].policy).value, wire[a].totalDeadline))
    && (forall s :: s in apps ==> exists a :: a in wire && wire[a].subject == s)
  }

  predicate LimitsLoaded(wire: map<string, AppWire>, limits: map<string, AppLimits>) {
    limits.Keys == wire.Keys && forall a :: a in wire ==> limits[a] == wire[a].limits
  }

  ghost predicate Loaded(w: File, c: Config) {
    && TableLoaded(w.routes, c.table) && c.failoverOrder == w.failoverOrder
    && AppsLoaded(w.apps, c.apps) && LimitsLoaded(w.apps, c.limits)
    && c.globalMaxInFlight == w.globalMaxInFlight
    && c.refreshInterval == OrDefault(w.authInterval, DEFAULT_REFRESH_INTERVAL)
    && SecretsLoaded(w.secretSource, c.secrets) && c.carried == w.carried
  }

  // ---- the code ----

  method RoutesToDomain(routes: seq<RouteWire>) returns (r: Result<FailoverPlan.Table, ConfigError>, models: set<string>, providers: set<string>)
    ensures r.Err? <==> FirstBadRoute(routes).Some?
    ensures r.Err? ==> Some(r.error) == FirstBadRoute(routes)
    ensures r.Ok? ==> TableLoaded(routes, r.value) && models == RoutedModels(routes) && providers == RoutedProviders(routes)
  {
    var table: FailoverPlan.Table := [];
    models, providers := {}, {};
    for i := 0 to |routes|
      invariant FirstBadRoute(routes[..i]).None?
      invariant TableLoaded(routes[..i], table)
      invariant models == RoutedModels(routes[..i]) && providers == RoutedProviders(routes[..i])
    {
      var next := routes[i];
      assert routes[..i + 1][..i] == routes[..i];
      if next.model == "" || next.provider == "" || next.endpoint == "" {
        BadRouteStays(routes, i);
        r := Err(RouteIncomplete(i));
        return;
      }
      RoutedOneMore(routes, i);
      table := table + [ModelProvider(next.model, next.provider, next.endpoint)];
      models, providers := models + {next.model}, providers + {next.provider};
    }
    assert routes[..|routes|] == routes;
    r := Ok(table);
  }

  lemma {:induction false} BadRouteStays(routes: seq<RouteWire>, i: nat)
    requires i < |routes| && FirstBadRoute(routes[..i]).None? && !RouteComplete(routes[i])
    ensures FirstBadRoute(routes) == Some(RouteIncomplete(i))
    decreases |routes|
  {
    var front := routes[..|routes| - 1];
    if i < |front| {
      assert front[..i] == routes[..i];
      BadRouteStays(front, i);
    }
  }

  lemma {:induction false} RoutedOneMore(routes: seq<RouteWire>, i: nat)
    requires i < |routes|
    ensures RoutedModels(routes[..i + 1]) == RoutedModels(routes[..i]) + {routes[i].model}
    ensures RoutedProviders(routes[..i + 1]) == RoutedProviders(routes[..i]) + {routes[i].provider}
  {
    var before, after := routes[..i], routes[..i + 1];
    forall m ensures m in RoutedModels(after) <==> m in RoutedModels(before) || m == after[i].model {
      if m in RoutedModels(before) {
        var k :| 0 <= k < i && before[k].model == m;
        assert after[k].model == m;
      }
      if m in RoutedModels(after) {
        var k :| 0 <= k < i + 1 && after[k].model == m;
        assert k < i ==> before[k].model == m;
      }
    }
    forall p ensures p in RoutedProviders(after) <==> p in RoutedProviders(before) || p == after[i].provider {
      if p in RoutedProviders(before) {
        var k :| 0 <= k < i && before[k].provider == p;
        assert after[k].provider == p;
      }
      if p in RoutedProviders(after) {
        var k :| 0 <= k < i + 1 && after[k].provider == p;
        assert k < i ==> before[k].provider == p;
      }
    }
  }

  /** The fault of a whole block: its own, else its first provider's. */
  function BlockError(s: SecretSource, names: seq<string>, routed: set<string>): Option<ConfigError>
    requires forall k :: 0 <= k < |names| ==> names[k] in s.providers
  {
    if SourceError(s).Some? then SourceError(s) else FirstSecretError(s.providers, names, routed)
  }

  /** `names` are the providers' in order. */
  method SecretSourceToDomain(s: SecretSource, routed: set<string>, walk: seq<string>, ghost names: seq<string>)
    returns (r: Result<Secrets, ConfigError>)
    requires IterationOf(walk, s.providers) && names == Sort(StringOrder(), walk)
    requires forall k :: 0 <= k < |names| ==> names[k] in s.providers
    ensures BlockError(s, names, routed).Some? ==> r == Err(BlockError(s, names, routed).value)
    ensures BlockError(s, names, routed).None? ==> r.Ok? && SecretsLoaded(s, r.value)
  {
    var block := CheckBlock(s);
    if block.Err? {
      return Err(block.error);
    }
    var sorted := SortedKeys(walk, s.providers);
    var providers := ProvidersToDomain(s.providers, sorted, routed, block.value.1);
    if providers.Err? {
      return Err(providers.error);
    }
    r := Ok(Secrets(s.kind, block.value.0, providers.value));
    ProvidersLoaded(s, sorted, r.value);
  }

  predicate ProvidersConverted(providers: map<string, ProviderSecret>, names: seq<string>, blockInterval: int, out: map<string, ProviderSecret>) {
    && (forall k :: 0 <= k < |names| ==> names[k] in out)
    && forall p :: p in out ==> p in names && p in providers && out[p] == SecretOf(providers[p], blockInterval)
  }

  lemma {:induction false} ProvidersLoaded(s: SecretSource, names: seq<string>, secrets: Secrets)
    requires IterationOf(names, s.providers) && secrets.kind == s.kind && secrets.vault == VaultOf(s)
    requires ProvidersConverted(s.providers, names, OrDefault(s.refreshInterval, DEFAULT_REFRESH_INTERVAL), secrets.providers)
    ensures SecretsLoaded(s, secrets)
  {
    IterationCoversKeys(names, s.providers);
    forall p | p in s.providers ensures p in secrets.providers {
      var k :| 0 <= k < |names| && names[k] == p;
    }
    assert secrets.providers.Keys == s.providers.Keys;
  }

  /** The block itself: its kind, its cadence, and a vault exactly when it is read. */
  method CheckBlock(s: SecretSource) returns (r: Result<(Vault, int), ConfigError>)
    ensures SourceError(s).Some? ==> r == Err(SourceError(s).value)
    ensures SourceError(s).None? ==> r == Ok((VaultOf(s), OrDefault(s.refreshInterval, DEFAULT_REFRESH_INTERVAL)))
  {
    if s.kind !in ["", "file", "vault"] {
      return Err(SecretKindUnknown);
    }
    if s.kind == "" && |s.providers| > 0 {
      return Err(SecretKindMissing);
    }
    var blockInterval := s.refreshInterval;
    if blockInterval < 0 {
      return Err(SecretInterval);
    }
    if blockInterval == 0 {
      blockInterval := DEFAULT_REFRESH_INTERVAL;
    }
    var vault := s.vault;
    if s.kind == "vault" {
      if vault.address == "" || vault.role == "" {
        return Err(VaultIncomplete);
      }
      if vault.authPath == "" {
        vault := vault.(authPath := DEFAULT_VAULT_AUTH_PATH);
      }
    } else if vault != Vault("", "", "") {
      return Err(VaultUnread);
    }
    r := Ok((vault, blockInterval));
  }

  /** The loop over the providers' names. */
  method ProvidersToDomain(providers: map<string, ProviderSecret>, names: seq<string>, routed: set<string>, blockInterval: int)
    returns (r: Result<map<string, ProviderSecret>, ConfigError>)
    requires forall k :: 0 <= k < |names| ==> names[k] in providers
    ensures
      var fault := FirstSecretError(providers, names, routed);
      if fault.Some? then r == Err(fault.value) else r.Ok? && ProvidersConverted(providers, names, blockInterval, r.value)
  {
    var secrets: map<string, ProviderSecret> := map[];
    for i := 0 to |names|
      invariant FirstSecretError(providers, names[..i], routed).None?
      invariant ProvidersConverted(providers, names[..i], blockInterval, secrets)
    {
      var name := names[i];
      var p := providers[name];
      assert names[..i + 1] == names[..i] + [name] && names[..i + 1][..i] == names[..i];
      var fault := None;
      if p.path == "" {
        fault := Some(SecretPathMissing(name));
      } else if name !in routed {
        fault := Some(SecretUnrouted(name));
      } else if p.refreshInterval < 0 {
        fault := Some(ProviderInterval(name));
      }
      if fault.Some? {
        SecretErrorStays(providers, names, i, routed);
        return Err(fault.value);
      }
      var interval := if p.refreshInterval == 0 then blockInterval else p.refreshInterval;
      secrets := secrets[name := ProviderSecret(p.path, interval)];
    }
    assert names[..|names|] == names;
    r := Ok(secrets);
  }

  lemma {:induction false} SecretErrorStays(providers: map<string, ProviderSecret>, names: seq<string>, i: nat, routed: set<string>)
    requires forall k :: 0 <= k < |names| ==> names[k] in providers
    requires i < |names| && FirstSecretError(providers, names[..i], routed).None?
    requires SecretError(providers[names[i]], names[i], routed).Some?
    ensures FirstSecretError(providers, names, routed) == SecretError(providers[names[i]], names[i], routed)
    decreases |names|
  {
    var front := names[..|names| - 1];
    if i < |front| {
      assert front[..i] == names[..i];
      SecretErrorStays(providers, front, i, routed);
    }
  }

  method PolicyToDomain(p: PolicyWire) returns (r: Option<FailoverPolicy>)
    ensures r == PolicyOf(p)
  {
    match p.kind {
      case "" => r := Some(FailoverPolicy(SameModel, []));
      case "same-model" => r := Some(FailoverPolicy(SameModel, []));
      case "any" => r := Some(FailoverPolicy(AnyModel, []));
      case "allowlist" => r := Some(FailoverPolicy(Allowlist, p.allowlist));
      case _ => r := None;
    }
  }

  /** Everything about one app but whose its subject is. */
  method CheckApp(a: AppWire, name: string, owner: Option<string>, routed: set<string>, globalMaxInFlight: int)
    returns (r: Result<FailoverPolicy, ConfigError>)
    ensures
      var fault := AppError(a, name, owner, routed, globalMaxInFlight);
      if fault.Some? then r == Err(fault.value) else PolicyOf(a.policy).Some? && r == Ok(PolicyOf(a.policy).value)
  {
    if a.subject == "" {
      return Err(SubjectMissing(name));
    }
    if owner.Some? {
      return Err(SubjectTaken(name, owner.value));
    }
    if globalMaxInFlight > 0 && a.limits.maxInFlight > globalMaxInFlight {
      return Err(CeilingTooHigh(name));
    }
    var policy := PolicyToDomain(a.policy);
    if policy.None? {
      return Err(PolicyUnknown(name));
    }
    var allowlist := policy.value.allowlist;
    assert allowlist[0..] == allowlist;
    for i := 0 to |allowlist|
      invariant FirstUnrouted(allowlist, routed) == FirstUnrouted(allowlist[i..], routed)
    {
      assert allowlist[i..][1..] == allowlist[i + 1..];
      if allowlist[i] !in routed {
        return Err(AllowlistUnrouted(name, allowlist[i]));
      }
    }
    r := Ok(policy.value);
  }

  /** The loop over the apps' names; `subjects` remembers whose each subject is. */
  method AppsToDomain(wire: map<string, AppWire>, names: seq<string>, routed: set<string>, globalMaxInFlight: int)
    returns (r: Result<(map<string, App>, map<string, AppLimits>), ConfigError>)
    requires forall k :: 0 <= k < |names| ==> names[k] in wire
    requires forall a :: a in wire <==> a in names
    ensures
      var fault := FirstAppError(wire, names, routed, globalMaxInFlight);
      if fault.Some? then r == Err(fault.value)
      else r.Ok? && AppsLoaded(wire, r.value.0) && LimitsLoaded(wire, r.value.1)
  {
    var apps: map<string, App> := map[];
    var limits: map<string, AppLimits> := map[];
    var subjects: map<string, string> := map[];
    for i := 0 to |names|
      invariant FirstAppError(wire, names[..i], routed, globalMaxInFlight).None?
      invariant SubjectsKept(wire, names[..i], subjects)
      invariant AppsKept(wire, names[..i], apps)
      invariant LimitsKept(wire, names[..i], limits)
    {
      var name := names[i];
      var a := wire[name];
      assert names[..i + 1] == names[..i] + [name] && names[..i + 1][..i] == names[..i];
      var owner := if a.subject in subjects then Some(subjects[a.subject]) else None;
      var policy := CheckApp(a, name, owner, routed, globalMaxInFlight);
      if policy.Err? {
        AppErrorStays(wire, names, i, routed, globalMaxInFlight);
        return Err(policy.error);
      }
      KeptOneMore(wire, names[..i], name, subjects, apps, limits);
      subjects := subjects[a.subject := name];
      apps := apps[a.subject := App(name, policy.value, a.totalDeadline)];
      limits := limits[name := a.limits];
    }
    assert names[..|names|] == names;
    AllKept(wire, names, apps, limits);
    r := Ok((apps, limits));
  }

  ghost predicate SubjectsKept(wire: map<string, AppWire>, names: seq<string>, subjects: map<string, string>)
    requires forall k :: 0 <= k < |names| ==> names[k] in wire
  {
    forall s :: (if s in subjects then Some(subjects[s]) else None) == Owner(wire, names, s)
  }

  ghost predicate AppsKept(wire: map<string, AppWire>, names: seq<string>, apps: map<string, App>)
    requires forall k :: 0 <= k < |names| ==> names[k] in wire
  {
    && (forall k :: 0 <= k < |names| ==> AppKept(wire[names[k]], names[k], apps))
    && (forall s :: s in apps ==> Owner(wire, names, s).Some?)
  }

  predicate LimitsKept(wire: map<string, AppWire>, names: seq<string>, limits: map<string, AppLimits>) {
    && (forall k :: 0 <= k < |names| ==> names[k] in limits)
    && (forall a :: a in limits ==> a in names && a in wire && limits[a] == wire[a].limits)
  }

  predicate AppKept(a: AppWire, name: string, apps: map<string, App>) {
    a.subject in apps && PolicyOf(a.policy).Some? && apps[a.subject] == App(name, PolicyOf(a.policy).value, a.totalDeadline)
  }

  lemma {:induction false} KeptOneMore(
    wire: map<string, AppWire>, names: seq<string>, name: string, subjects: map<string, string>, apps: map<string, App>,
    limits: map<string, AppLimits>)
    requires (forall k :: 0 <= k < |names| ==> names[k] in wire) && name in wire
    requires SubjectsKept(wire, names, subjects) && AppsKept(wire, names, apps) && LimitsKept(wire, names, limits)
    requires Owner(wire, names, wire[name].subject).None? && PolicyOf(wire[name].policy).Some?
    ensures SubjectsKept(wire, names + [name], subjects[wire[name].subject := name])
    ensures AppsKept(wire, names + [name], apps[wire[name].subject := App(name, PolicyOf(wire[name].policy).value, wire[name].totalDeadline)])
    ensures LimitsKept(wire, names + [name], limits[name := wire[name].limits])
  {
    assert (names + [name])[..|names|] == names;
    OwnerIff(wire, names, wire[name].subject);
  }

  lemma {:induction false} AllKept(wire: map<string, AppWire>, names: seq<string>, apps: map<string, App>, limits: map<string, AppLimits>)
    requires (forall k :: 0 <= k < |names| ==> names[k] in wire) && (forall a :: a in wire <==> a in names)
    requires AppsKept(wire, names, apps) && LimitsKept(wire, names, limits)
    ensures AppsLoaded(wire, apps) && LimitsLoaded(wire, limits)
  {
    forall a | a in wire ensures AppKept(wire[a], a, apps) {
      var k :| 0 <= k < |names| && names[k] == a;
    }
    forall s | s in apps ensures exists a :: a in wire && wire[a].subject == s {
      OwnerIff(wire, names, s);
    }
  }

  lemma {:induction false} AppErrorStays(wire: map<string, AppWire>, names: seq<string>, i: nat, routed: set<string>, globalMaxInFlight: int)
    requires forall k :: 0 <= k < |names| ==> names[k] in wire
    requires i < |names| && FirstAppError(wire, names[..i], routed, globalMaxInFlight).None?
    requires AppError(wire[names[i]], names[i], Owner(wire, names[..i], wire[names[i]].subject), routed, globalMaxInFlight).Some?
    ensures FirstAppError(wire, names, routed, globalMaxInFlight)
         == AppError(wire[names[i]], names[i], Owner(wire, names[..i], wire[names[i]].subject), routed, globalMaxInFlight)
    decreases |names|
  {
    var front := names[..|names| - 1];
    if i < |front| {
      assert front[..i] == names[..i];
      AppErrorStays(wire, front, i, routed, globalMaxInFlight);
    }
  }

  /** A file boots the gateway exactly when it is well formed, with exactly what it says; otherwise the first error is named. */
  method ToDomain(w: File, secretWalk: seq<string>, appWalk: seq<string>) returns (r: Result<Config, ConfigError>)
    requires IterationOf(secretWalk, w.secretSource.providers) && IterationOf(appWalk, w.apps)
    ensures r.Ok? <==> WellFormed(w)
    ensures r.Ok? ==> Loaded(w, r.value)
    ensures r.Err? ==> Reported(w, secretWalk, appWalk, r.error)
  {
    ghost var secretNames, appNames := Sort(StringOrder(), secretWalk), Sort(StringOrder(), appWalk);
    WalksCoverFile(w, secretWalk, appWalk);
    var interval := w.authInterval;
    if interval < 0 {
      return Err(AuthInterval);
    }
    if interval == 0 {
      interval := DEFAULT_REFRESH_INTERVAL;
    }
    var table, models, providers := RoutesToDomain(w.routes);
    if table.Err? {
      return Err(table.error);
    }
    var secrets := SecretSourceToDomain(w.secretSource, providers, secretWalk, secretNames);
    if secrets.Err? {
      return Err(secrets.error);
    }
    var names := SortedKeys(appWalk, w.apps);
    assert names == appNames;
    var apps := AppsToDomain(w.apps, names, models, w.globalMaxInFlight);
    if apps.Err? {
      return Err(apps.error);
    }
    r := Ok(Config(table.value, w.failoverOrder, apps.value.0, apps.value.1, w.globalMaxInFlight, interval, secrets.value, w.carried));
  }

  lemma {:induction false} WalksCoverFile(w: File, secretWalk: seq<string>, appWalk: seq<string>)
    requires IterationOf(secretWalk, w.secretSource.providers) && IterationOf(appWalk, w.apps)
    ensures
      var providers, apps := Sort(StringOrder(), secretWalk), Sort(StringOrder(), appWalk);
      && (forall k :: 0 <= k < |providers| ==> providers[k] in w.secretSource.providers)
      && (forall k :: 0 <= k < |apps| ==> apps[k] in w.apps)
      && (forall a :: a in w.apps <==> a in apps)
      && (FirstError(w, providers, apps).None? <==> WellFormed(w))
  {
    SortedKeysIterate(secretWalk, w.secretSource.providers);
    SortedKeysIterate(appWalk, w.apps);
    NoErrorIffWellFormed(w, Sort(StringOrder(), secretWalk), Sort(StringOrder(), appWalk));
    IterationCoversKeys(Sort(StringOrder(), appWalk), w.apps);
  }

  /** The error is the first one met with the names in order. */
  ghost predicate Reported(w: File, secretWalk: seq<string>, appWalk: seq<string>, e: ConfigError) {
    var providers, apps := Sort(StringOrder(), secretWalk), Sort(StringOrder(), appWalk);
    && (forall k :: 0 <= k < |providers| ==> providers[k] in w.secretSource.providers)
    && (forall k :: 0 <= k < |apps| ==> apps[k] in w.apps)
    && FirstError(w, providers, apps) == Some(e)
  }

  // ---- boots are deterministic ----

  /** The error reported does not depend on how either map was walked. */
  lemma {:induction false} ErrorForgetsWalks(
    w: File, secretWalk: seq<string>, appWalk: seq<string>, e: ConfigError,
    otherSecretWalk: seq<string>, otherAppWalk: seq<string>, other: ConfigError)
    requires IterationOf(secretWalk, w.secretSource.providers) && IterationOf(otherSecretWalk, w.secretSource.providers)
    requires IterationOf(appWalk, w.apps) && IterationOf(otherAppWalk, w.apps)
    requires Reported(w, secretWalk, appWalk, e) && Reported(w, otherSecretWalk, otherAppWalk, other)
    ensures e == other
  {
    SortedKeysForgetWalk(secretWalk, otherSecretWalk, w.secretSource.providers);
    SortedKeysForgetWalk(appWalk, otherAppWalk, w.apps);
  }

  /** Nor does the configuration. */
  lemma {:induction false} LoadedIsUnique(w: File, c: Config, d: Config)
    requires Loaded(w, c) && Loaded(w, d)
    ensures c == d
  {
    assert c.table == d.table;
    forall s | s in c.apps ensures s in d.apps && d.apps[s] == c.apps[s] {
      var a :| a in w.apps && w.apps[a].subject == s;
    }
    forall s | s in d.apps ensures s in c.apps {
      var a :| a in w.apps && w.apps[a].subject == s;
    }
    assert c.apps == d.apps && c.limits == d.limits;
    assert c.secrets.providers == d.secrets.providers;
  }

  // ---- what the runtime may assume ----

  lemma {:induction false} RoutedHasRow(routes: seq<RouteWire>, table: FailoverPlan.Table, model: string) returns (row: ModelProvider)
    requires TableLoaded(routes, table) && model in RoutedModels(routes)
    ensures row in table && row.model == model
  {
    var i :| 0 <= i < |routes| && routes[i].model == model;
    row := table[i];
  }

  /** Every model an app's allowlist names has a row in any plan of that app whose requested model is served. */
  lemma {:induction false} AllowlistedModelsHaveRows(w: File, c: Config, subject: string, requested: string, model: string)
    returns (row: ModelProvider)
    requires WellFormed(w) && Loaded(w, c) && subject in c.apps
    requires c.apps[subject].policy.kind == Allowlist && model in c.apps[subject].policy.allowlist
    requires FailoverPlan.RowsOf(c.table, requested) != []
    ensures row.model == model && row in FailoverPlan.Plan(requested, c.apps[subject].policy, c.table, c.failoverOrder)
  {
    var a :| a in w.apps && w.apps[a].subject == subject;
    assert AppWellFormed(w.apps[a], RoutedModels(w.routes), w.globalMaxInFlight);
    row := RoutedHasRow(w.routes, c.table, model);
    PlanProperties.PlanRows(requested, c.apps[subject].policy, c.table, c.failoverOrder, row);
  }

  /** No loaded policy is of a kind the planner does not know. */
  lemma {:induction false} PoliciesAreKnown(w: File, c: Config, subject: string)
    requires Loaded(w, c) && subject in c.apps
    ensures !c.apps[subject].policy.kind.Unrecognised?
    ensures c.apps[subject].policy.kind != Allowlist ==> c.apps[subject].policy.allowlist == []
  {
    var a :| a in w.apps && w.apps[a].subject == subject;
  }

  /** Under a positive global cap, no app's ceiling could ever be refused by the cap alone with nothing in flight. */
  lemma {:induction false} CeilingsFitUnderCap(w: File, c: Config, name: string)
    requires WellFormed(w) && Loaded(w, c) && name in c.limits && c.globalMaxInFlight > 0
    ensures c.limits[name].maxInFlight <= c.globalMaxInFlight
  {
    assert AppWellFormed(w.apps[name], RoutedModels(w.routes), w.globalMaxInFlight);
  }

  /** Every keyed provider has a path, a positive cadence and a row of the table to spend its key on. */
  lemma {:induction false} KeyedProvidersAreRouted(w: File, c: Config, provider: string) returns (row: ModelProvider)
    requires WellFormed(w) && Loaded(w, c) && provider in c.secrets.providers
    ensures row in c.table && row.provider == provider
    ensures c.secrets.providers[provider].path != "" && c.secrets.providers[provider].refreshInterval > 0
  {
    assert SecretWellFormed(w.secretSource.providers[provider], provider, RoutedProviders(w.routes));
    var i :| 0 <= i < |w.routes| && w.routes[i].provider == provider;
    row := c.table[i];
  }
}
