/** The provider credential cache: fail static, single flight, cooldown. */
module ProviderKeys {
  import opened Wrappers
  import opened Iteration
  import opened Sorting
  import Windows

  const FETCH_TIMEOUT := 10 * Windows.SECOND
  const TRIGGER_COOLDOWN := 30 * Windows.SECOND

  datatype Source = Source(path: string, refreshInterval: int)

  /** A provider's slot; `None` is the zero time. */
  datatype Slot = Slot(key: string, loadedAt: Option<nat>, refreshing: bool, lastTrigger: Option<nat>)

  datatype RefreshError = NoSource | FetchFailed | NoCredential

  /** What a read came back with, and when. */
  datatype Fetched = Fetched(answer: Result<string, string>, at: nat)

  // ---- specification ----

  /** A read worth keeping holds a credential. */
  function Verdict(f: Fetched): Option<RefreshError> {
    match f.answer
    case Err(_) => Some(FetchFailed)
    case Ok(key) => if key == "" then Some(NoCredential) else None
  }

  function Commit(e: Slot, key: string, at: nat): Slot {
    e.(key := key, loadedAt := Some(at))
  }

  /** Fail static: whatever is not a credential leaves the one in force. */
  function Refreshed(e: Slot, f: Fetched): Slot {
    if Verdict(f).None? then Commit(e, f.answer.value, f.at) else e
  }

  predicate CooledDown(e: Slot, now: nat) {
    e.lastTrigger.None? || now - e.lastTrigger.value >= TRIGGER_COOLDOWN
  }

  predicate MayTrigger(e: Slot, now: nat) {
    !e.refreshing && CooledDown(e, now)
  }

  function Triggered(e: Slot, now: nat): Slot {
    e.(refreshing := true, lastTrigger := Some(now))
  }

  /** The names among `names` whose reads, starting with number `from`, were not worth keeping. */
  function Failures(names: seq<string>, script: nat -> Fetched, from: nat): seq<string> {
    if names == [] then []
    else
      var front, last := names[..|names| - 1], names[|names| - 1];
      Failures(front, script, from) + if Verdict(script(from + |front|)).Some? then [last] else []
  }

  /** Reading every name in turn, the first with read number `from`. */
  function RefreshedAll(was: map<string, Slot>, names: seq<string>, script: nat -> Fetched, from: nat): map<string, Slot> {
    if names == [] then was
    else
      var front, last := names[..|names| - 1], names[|names| - 1];
      RefreshedOne(RefreshedAll(was, front, script, from), last, script(from + |front|))
  }

  function RefreshedOne(m: map<string, Slot>, p: string, f: Fetched): map<string, Slot> {
    if p in m then m[p := Refreshed(m[p], f)] else m
  }

  /** With every name once, each entry is as if it had been refreshed alone: no failure keeps another from its success. */
  lemma {:induction false} EachRefreshedAlone(was: map<string, Slot>, names: seq<string>, script: nat -> Fetched, from: nat)
    requires forall i, j :: 0 <= i < j < |names| ==> names[i] != names[j]
    ensures
      var now := RefreshedAll(was, names, script, from);
      && now.Keys == was.Keys
      && (forall k :: 0 <= k < |names| && names[k] in was ==> now[names[k]] == Refreshed(was[names[k]], script(from + k)))
      && (forall p :: p in was && p !in names ==> now[p] == was[p])
  {
    if names != [] {
      var front := names[..|names| - 1];
      EachRefreshedAlone(was, front, script, from);
      assert forall k :: 0 <= k < |front| ==> front[k] == names[k];
      assert names[|front|] !in front;
    }
  }

  /** A read with a credential puts it and its time in force; any other says why and changes nothing. */
  predicate Kept(before: map<string, Slot>, after: map<string, Slot>, provider: string, f: Fetched, err: Option<RefreshError>) {
    match f.answer
    case Err(_) => err == Some(FetchFailed) && after == before
    case Ok("") => err == Some(NoCredential) && after == before
    case Ok(key) =>
      && err == None && provider in before
      && after == before[provider := Slot(key, Some(f.at), before[provider].refreshing, before[provider].lastTrigger)]
  }

  ghost predicate Servable(entries: map<string, Slot>) {
    entries == map[] || exists p :: p in entries && entries[p].loadedAt.Some?
  }

  // ---- the code ----

  /** The entries, the paths asked for and the names reported. */
  datatype Reads = Reads(entries: map<string, Slot>, asked: seq<string>, failed: seq<string>)

  class Fetcher {
    const script: nat -> Fetched
    var asked: seq<string>

    constructor (script: nat -> Fetched)
      ensures this.script == script && asked == []
    {
      this.script, asked := script, [];
    }

    method Fetch(path: string) returns (f: Fetched)
      modifies this
      ensures asked == old(asked) + [path] && f == script(|old(asked)|)
    {
      f := script(|asked|);
      asked := asked + [path];
    }
  }

  class Cache {
    const fetch: Fetcher
    const sources: map<string, Source>
    var entries: map<string, Slot>

    constructor (fetch: Fetcher, sources: map<string, Source>)
      ensures this.fetch == fetch && this.sources == sources
      ensures Valid() && forall p :: p in entries ==> entries[p] == Slot("", None, false, None)
    {
      this.fetch, this.sources := fetch, sources;
      entries := map p | p in sources :: Slot("", None, false, None);
    }

    /** Every source has its entry. */
    ghost predicate Valid()
      reads this
    {
      entries.Keys == sources.Keys
    }

    function KeyFor(provider: string): (key: string)
      reads this
      ensures key == if provider in entries then entries[provider].key else ""
    {
      if provider !in entries then "" else entries[provider].key
    }

    /** Sorted, so that whatever order the map was walked in is forgotten. */
    method Providers(walk: seq<string>) returns (names: seq<string>)
      requires IterationOf(walk, entries)
      ensures names == Sort(StringOrder(), walk)
      ensures multiset(names) == multiset(entries.Keys) && Sorted(StringOrder(), names)
    {
      names := SortedKeys(walk, entries);
    }

    method Refresh(provider: string) returns (err: Option<RefreshError>)
      requires Valid()
      modifies fetch, this
      ensures Valid()
      ensures provider !in old(entries) ==> err == Some(NoSource) && fetch.asked == old(fetch.asked) && entries == old(entries)
      ensures provider in old(entries) ==>
                var f := fetch.script(|old(fetch.asked)|);
                && err == Verdict(f)
                && fetch.asked == old(fetch.asked) + [sources[provider].path]
                && entries == RefreshedOne(old(entries), provider, f)
                && Kept(old(entries), entries, provider, f, err)
    {
      if provider !in entries {
        return Some(NoSource);
      }
      var f := fetch.Fetch(sources[provider].path);
      if f.answer.Err? {
        return Some(FetchFailed);
      }
      if f.answer.value == "" {
        return Some(NoCredential);
      }
      entries := entries[provider := entries[provider].(key := f.answer.value, loadedAt := Some(f.at))];
      err := None;
    }

    /** Where each name's credential lives. */
    function Paths(names: seq<string>): seq<string> {
      if names == [] then []
      else
        var last := names[|names| - 1];
        Paths(names[..|names| - 1]) + [if last in sources then sources[last].path else ""]
    }

    /** Every provider is read once, in name order, and the failures reported together. */
    method RefreshAll(walk: seq<string>) returns (failed: seq<string>)
      requires Valid() && IterationOf(walk, entries)
      modifies fetch, this
      ensures Valid()
      ensures
        var names, from := Sort(StringOrder(), walk), |old(fetch.asked)|;
        && multiset(names) == multiset(old(entries).Keys)
        && failed == Failures(names, fetch.script, from)
        && fetch.asked == old(fetch.asked) + Paths(names)
        && entries == RefreshedAll(old(entries), names, fetch.script, from)
    {
      var names := Providers(walk);
      IterationCoversKeys(names, entries);
      assert forall k :: 0 <= k < |names| ==> names[k] in names;
      failed := RefreshEach(names);
    }

    /** The loop of `RefreshAll`. */
    method RefreshEach(names: seq<string>) returns (failed: seq<string>)
      requires Valid() && forall k :: 0 <= k < |names| ==> names[k] in entries
      modifies fetch, this
      ensures Valid()
      ensures
        var from := |old(fetch.asked)|;
        && failed == Failures(names, fetch.script, from)
        && fetch.asked == old(fetch.asked) + Paths(names)
        && entries == RefreshedAll(old(entries), names, fetch.script, from)
    {
      ghost var script, from := fetch.script, Reads(entries, fetch.asked, []);
      ghost var seen: seq<string> := [];
      failed := [];
      for i := 0 to |names|
        invariant Valid() && seen == names[..i] && |fetch.asked| == |from.asked| + i
        invariant Reads(entries, fetch.asked, failed) == Swept(from, seen, script)
      {
        ghost var before := Reads(entries, fetch.asked, failed);
        SweptOneMore(from, seen, names[i], script);
        var err := Refresh(names[i]);
        if err.Some? {
          failed := failed + [names[i]];
        }
        assert Reads(entries, fetch.asked, failed) == OneRead(before, names[i], script);
        seen := seen + [names[i]];
      }
      assert seen == names;
      SweptInParts(from, names, script);
    }

    /** What the sweep has changed so far. */
    function OneRead(r: Reads, next: string, script: nat -> Fetched): Reads {
      var f := script(|r.asked|);
      Reads(RefreshedOne(r.entries, next, f), r.asked + [if next in sources then sources[next].path else ""],
            r.failed + if Verdict(f).Some? then [next] else [])
    }

    function Swept(from: Reads, names: seq<string>, script: nat -> Fetched): Reads {
      if names == [] then from else OneRead(Swept(from, names[..|names| - 1], script), names[|names| - 1], script)
    }

    lemma {:induction false} SweptOneMore(from: Reads, names: seq<string>, next: string, script: nat -> Fetched)
      ensures Swept(from, names + [next], script) == OneRead(Swept(from, names, script), next, script)
    {
      assert (names + [next])[..|names|] == names;
    }

    lemma {:induction false} SweptInParts(from: Reads, names: seq<string>, script: nat -> Fetched)
      requires from.failed == []
      ensures
        var r := Swept(from, names, script);
        && |r.asked| == |from.asked| + |names|
        && r.entries == RefreshedAll(from.entries, names, script, |from.asked|)
        && r.asked == from.asked + Paths(names)
        && r.failed == Failures(names, script, |from.asked|)
    {
      if names != [] {
        SweptInParts(from, names[..|names| - 1], script);
      }
    }

    /** Single flight and cooldown, decided and marked under one lock. */
    method TriggerRefresh(provider: string, now: nat) returns (started: bool)
      requires Valid()
      modifies this
      ensures Valid()
      ensures started == (provider in old(entries) && MayTrigger(old(entries)[provider], now))
      ensures entries == if started then old(entries)[provider := Triggered(old(entries)[provider], now)] else old(entries)
      ensures started <==>
        && provider in old(entries) && !old(entries)[provider].refreshing
        && (old(entries)[provider].lastTrigger.Some? ==> now >= old(entries)[provider].lastTrigger.value + 30_000_000_000)
      ensures started ==>
        entries == old(entries)[provider := Slot(old(entries)[provider].key, old(entries)[provider].loadedAt, true, Some(now))]
    {
      if provider !in entries {
        return false;
      }
      var e := entries[provider];
      if e.refreshing || (e.lastTrigger.Some? && now - e.lastTrigger.value < TRIGGER_COOLDOWN) {
        return false;
      }
      entries := entries[provider := e.(refreshing := true, lastTrigger := Some(now))];
      started := true;
    }

    /** The goroutine a started trigger leaves behind: the flag comes down whatever the read brought. */
    method RunTriggered(provider: string)
      requires Valid() && provider in entries
      modifies fetch, this
      ensures Valid()
      ensures
        var f := fetch.script(|old(fetch.asked)|);
        entries == old(entries)[provider := Refreshed(old(entries)[provider], f).(refreshing := false)]
      ensures
        var f, was, now := fetch.script(|old(fetch.asked)|), old(entries)[provider], entries[provider];
        && !now.refreshing && now.lastTrigger == was.lastTrigger
        && (if f.answer.Ok? && f.answer.value != "" then now.key == f.answer.value && now.loadedAt == Some(f.at)
            else now.key == was.key && now.loadedAt == was.loadedAt)
    {
      var _ := Refresh(provider);
      entries := entries[provider := entries[provider].(refreshing := false)];
    }

    /** Ready with nothing to load, or with anything loaded, in whatever order the map is walked. */
    method Ready(walk: seq<string>) returns (ready: bool)
      requires IterationOf(walk, entries)
      ensures ready <==> Servable(entries)
    {
      IterationCoversKeys(walk, entries);
      if |entries| == 0 {
        return true;
      }
      for i := 0 to |walk|
        invariant forall k :: 0 <= k < i ==> entries[walk[k]].loadedAt.None?
      {
        if entries[walk[i]].loadedAt.Some? {
          return true;
        }
      }
      forall p | p in entries ensures entries[p].loadedAt.None? {
        assert p in walk;
      }
      ready := false;
    }
  }

  /** The failures reported do not depend on how the map was walked. */
  lemma {:induction false} RefreshAllForgetsOrder<V>(m: map<string, V>, walk: seq<string>, other: seq<string>, script: nat -> Fetched, from: nat)
    requires IterationOf(walk, m) && IterationOf(other, m)
    ensures Failures(Sort(StringOrder(), walk), script, from) == Failures(Sort(StringOrder(), other), script, from)
  {
    SortedKeysForgetWalk(walk, other, m);
  }

  /** Exactly the providers whose read was not worth keeping are reported. */
  lemma {:induction false} FailuresAreTheFailed(names: seq<string>, script: nat -> Fetched, from: nat, p: string)
    ensures p in Failures(names, script, from) <==> exists k :: 0 <= k < |names| && names[k] == p && Verdict(script(from + k)).Some?
  {
    if names != [] {
      var front := names[..|names| - 1];
      FailuresAreTheFailed(front, script, from, p);
      assert forall k :: 0 <= k < |front| ==> front[k] == names[k];
    }
  }
}
