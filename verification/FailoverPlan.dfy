/**
 * Which model providers a request may use, in which order:
 * `buildModelsProvidersFallback` and `providerRank`.
 */
module FailoverPlan {
  import opened Domain
  import Sorting

  type Table = seq<ModelProvider>

  // ---- selections, in table order ----

  function RowsOf(table: Table, model: string): (rows: Table)
    ensures forall k :: 0 <= k < |rows| ==> rows[k].model == model
  {
    if table == [] then []
    else
      var last := table[|table| - 1];
      RowsOf(table[..|table| - 1], model) + if last.model == model then [last] else []
  }

  function RowsNotOf(table: Table, model: string): (rows: Table)
    ensures forall k :: 0 <= k < |rows| ==> rows[k].model != model
  {
    if table == [] then []
    else
      var last := table[|table| - 1];
      RowsNotOf(table[..|table| - 1], model) + if last.model == model then [] else [last]
  }

  function RowsIn(table: Table, models: set<string>): (rows: Table)
    ensures forall k :: 0 <= k < |rows| ==> rows[k].model in models
  {
    if table == [] then []
    else
      var last := table[|table| - 1];
      RowsIn(table[..|table| - 1], models) + if last.model in models then [last] else []
  }

  function Models(names: seq<string>): set<string> {
    set name | name in names
  }

  // ---- ranks ----

  /** Each provider's last position in the order, counted from one. */
  function RankMap(order: seq<string>): map<string, nat> {
    if order == [] then map[]
    else RankMap(order[..|order| - 1])[order[|order| - 1] := |order|]
  }

  function ProviderRank(rank: map<string, nat>, provider: string): nat {
    if provider in rank then rank[provider] else |rank| + 1
  }

  function ByRank(rank: map<string, nat>): (ModelProvider, ModelProvider) -> bool {
    (a: ModelProvider, b: ModelProvider) => ProviderRank(rank, a.provider) <= ProviderRank(rank, b.provider)
  }

  /** The first position at which the allowlist names the model. */
  function Preference(allowlist: seq<string>, model: string): nat {
    if allowlist == [] || allowlist[0] == model then 0 else 1 + Preference(allowlist[1..], model)
  }

  function ByPreference(allowlist: seq<string>): (ModelProvider, ModelProvider) -> bool {
    (a: ModelProvider, b: ModelProvider) => Preference(allowlist, a.model) <= Preference(allowlist, b.model)
  }

  // ---- the plan ----

  /** What may follow the requested model's own rows. */
  function Substitutes(requested: string, policy: FailoverPolicy, table: Table, order: seq<string>): Table {
    var rest := RowsNotOf(table, requested);
    match policy.kind
    case AnyModel => Sorting.Sort(ByRank(RankMap(order)), rest)
    case Allowlist => Sorting.Sort(ByPreference(policy.allowlist), RowsIn(rest, Models(policy.allowlist)))
    case _ => []
  }

  function Plan(requested: string, policy: FailoverPolicy, table: Table, order: seq<string>): Table {
    var primary := RowsOf(table, requested);
    if primary == [] then [] else primary + Substitutes(requested, policy, table, order)
  }

  // ---- facts about selections ----

  lemma {:induction false} Partition(table: Table, model: string)
    ensures multiset(RowsOf(table, model)) + multiset(RowsNotOf(table, model)) == multiset(table)
  {
    if table != [] {
      var front, last := table[..|table| - 1], table[|table| - 1];
      Partition(front, model);
      assert multiset(table) == multiset(front) + multiset{last} by {
        assert table == front + [last];
      }
      if last.model == model {
        assert RowsNotOf(table, model) == RowsNotOf(front, model);
      } else {
        assert RowsOf(table, model) == RowsOf(front, model);
      }
    }
  }

  lemma {:induction false} RowsInSelects(table: Table, models: set<string>)
    ensures multiset(RowsIn(table, models)) <= multiset(table)
  {
    if table != [] {
      var front, last := table[..|table| - 1], table[|table| - 1];
      RowsInSelects(front, models);
      assert table == front + [last];
      assert RowsIn(front, models) + [] == RowsIn(front, models);
    }
  }

  lemma {:induction false} RowsInKeepsAll(table: Table, models: set<string>)
    requires forall k :: 0 <= k < |table| ==> table[k].model in models
    ensures RowsIn(table, models) == table
  {
    if table != [] {
      RowsInKeepsAll(table[..|table| - 1], models);
      assert table == table[..|table| - 1] + [table[|table| - 1]];
    }
  }

  /** The selection loses something exactly when some row's model is not among the names. */
  lemma {:induction false} LeftOut(primary: Table, rest: Table, models: set<string>, table: Table, tail: Table)
    requires multiset(table) == multiset(primary) + multiset(rest)
    requires multiset(tail) == multiset(RowsIn(rest, models))
    ensures multiset(primary + tail) != multiset(table) <==> exists k :: 0 <= k < |rest| && rest[k].model !in models
  {
    assert multiset(primary + tail) == multiset(primary) + multiset(tail);
    if k :| 0 <= k < |rest| && rest[k].model !in models {
      var r := rest[k];
      assert r !in RowsIn(rest, models);
      assert r !in multiset(tail);
      assert r in multiset(rest);
      assert multiset(primary + tail)[r] < multiset(table)[r];
    } else {
      RowsInKeepsAll(rest, models);
    }
  }

  // ---- facts about ranks ----

  lemma {:induction false} RanksArePreorders(rank: map<string, nat>, allowlist: seq<string>)
    ensures Sorting.TotalPreorder(ByRank(rank)) && Sorting.TotalPreorder(ByPreference(allowlist))
  {
  }

  lemma {:induction false} PreferenceIsFirst(allowlist: seq<string>, model: string)
    ensures Preference(allowlist, model) <= |allowlist|
    ensures model !in allowlist[..Preference(allowlist, model)]
    ensures model in allowlist <==> Preference(allowlist, model) < |allowlist|
    ensures model in allowlist ==> allowlist[Preference(allowlist, model)] == model
  {
    if allowlist != [] && allowlist[0] != model {
      PreferenceIsFirst(allowlist[1..], model);
      var p := Preference(allowlist[1..], model);
      assert allowlist[..p + 1] == [allowlist[0]] + allowlist[1..][..p];
      assert allowlist == [allowlist[0]] + allowlist[1..];
    }
  }

  lemma {:induction false} PreferenceAt(allowlist: seq<string>, i: nat)
    requires i < |allowlist|
    ensures allowlist[i] !in allowlist[..i] ==> Preference(allowlist, allowlist[i]) == i
    ensures forall model :: model in allowlist[..i] ==> Preference(allowlist, model) < i
  {
    forall model ensures model in allowlist[..i] ==> Preference(allowlist, model) < i {
      PreferenceIsFirst(allowlist, model);
      NotBeyond(allowlist, model, i);
    }
    PreferenceIsFirst(allowlist, allowlist[i]);
    NotBeyond(allowlist, allowlist[i], i + 1);
    var p := Preference(allowlist, allowlist[i]);
    assert allowlist[i] in allowlist[..i + 1];
    if p < i {
      assert allowlist[..i][p] == allowlist[i];
    }
  }

  lemma {:induction false} NotBeyond(allowlist: seq<string>, model: string, i: nat)
    requires i <= |allowlist|
    ensures model in allowlist[..i] ==> Preference(allowlist, model) < i
  {
    if i > 0 && allowlist[0] != model {
      NotBeyond(allowlist[1..], model, i - 1);
      assert allowlist[..i] == [allowlist[0]] + allowlist[1..][..i - 1];
    }
  }

  lemma {:induction false} RankIsLastPosition(order: seq<string>, provider: string)
    ensures provider in RankMap(order) <==> provider in order
    ensures provider in order ==>
      var r := RankMap(order)[provider];
      1 <= r <= |order| && order[r - 1] == provider && forall k :: r <= k < |order| ==> order[k] != provider
  {
    if order != [] {
      var front := order[..|order| - 1];
      RankIsLastPosition(front, provider);
      assert order == front + [order[|order| - 1]];
    }
  }

  // ---- the nested loops of the allowlist are a stable sort ----

  /** A row that precedes everything in `late` is inserted in front of it. */
  lemma {:induction false} InsertAhead(leq: (ModelProvider, ModelProvider) -> bool, early: Table, late: Table, r: ModelProvider)
    requires forall k :: 0 <= k < |late| ==> !leq(late[k], r)
    ensures Sorting.Insert(leq, early + late, r) == Sorting.Insert(leq, early, r) + late
  {
    if late == [] {
      assert early + late == early;
    } else {
      var front, last := late[..|late| - 1], late[|late| - 1];
      InsertAhead(leq, early, front, r);
      assert (early + late)[..|early + late| - 1] == early + front;
      assert front + [last] == late;
    }
  }

  /** Rows of `model` tie with each other and come after every row of a model already seen. */
  ghost predicate ComesNext(leq: (ModelProvider, ModelProvider) -> bool, seen: set<string>, model: string) {
    forall a: ModelProvider, b: ModelProvider :: b.model == model && (a.model == model || a.model in seen) ==>
      leq(a, b) && (a.model in seen ==> !leq(b, a))
  }

  /** Naming one more model, less preferred than those before, appends its rows in table order. */
  lemma {:induction false} OneMoreModel(
    leq: (ModelProvider, ModelProvider) -> bool, model: string, rest: Table, seen: set<string>)
    requires Sorting.TotalPreorder(leq) && ComesNext(leq, seen, model) && model !in seen
    ensures Sorting.Sort(leq, RowsIn(rest, seen + {model})) == Sorting.Sort(leq, RowsIn(rest, seen)) + RowsOf(rest, model)
  {
    if rest != [] {
      var front, last := rest[..|rest| - 1], rest[|rest| - 1];
      OneMoreModel(leq, model, front, seen);
      var early, late := Sorting.Sort(leq, RowsIn(front, seen)), RowsOf(front, model);
      if last.model == model {
        assert RowsIn(rest, seen) == RowsIn(front, seen);
        SortPush(leq, RowsIn(front, seen + {model}), last);
        AppendedLast(leq, model, front, seen, last);
      } else if last.model in seen {
        assert RowsOf(rest, model) == late;
        SortPush(leq, RowsIn(front, seen), last);
        SortPush(leq, RowsIn(front, seen + {model}), last);
        NoneAhead(leq, model, front, seen, last);
        InsertAhead(leq, early, late, last);
      } else {
        assert RowsIn(rest, seen) == RowsIn(front, seen);
        assert RowsIn(rest, seen + {model}) == RowsIn(front, seen + {model});
        assert RowsOf(rest, model) == late;
      }
    }
  }

  lemma {:induction false} AppendedLast(
    leq: (ModelProvider, ModelProvider) -> bool, model: string, front: Table, seen: set<string>, last: ModelProvider)
    requires Sorting.TotalPreorder(leq) && ComesNext(leq, seen, model) && last.model == model
    ensures
      var early, late := Sorting.Sort(leq, RowsIn(front, seen)), RowsOf(front, model);
      Sorting.Insert(leq, early + late, last) == early + (late + [last])
  {
    var early, late := Sorting.Sort(leq, RowsIn(front, seen)), RowsOf(front, model);
    SortedRows(leq, RowsIn(front, seen));
    if early + late != [] {
      var r: ModelProvider := (early + late)[|early + late| - 1];
      assert r.model == model || r.model in seen;
      assert leq(r, last);
    }
    assert early + late + [last] == early + (late + [last]);
  }

  lemma {:induction false} NoneAhead(
    leq: (ModelProvider, ModelProvider) -> bool, model: string, front: Table, seen: set<string>, last: ModelProvider)
    requires ComesNext(leq, seen, model) && last.model in seen
    ensures forall k :: 0 <= k < |RowsOf(front, model)| ==> !leq(RowsOf(front, model)[k], last)
  {
  }

  lemma {:induction false} SortPush(leq: (ModelProvider, ModelProvider) -> bool, rows: Table, r: ModelProvider)
    ensures Sorting.Sort(leq, rows + [r]) == Sorting.Insert(leq, Sorting.Sort(leq, rows), r)
  {
    assert (rows + [r])[..|rows|] == rows;
  }

  lemma {:induction false} SortedRows(leq: (ModelProvider, ModelProvider) -> bool, rows: Table)
    requires Sorting.TotalPreorder(leq)
    ensures forall k :: 0 <= k < |rows| ==> Sorting.Sort(leq, rows)[k] in rows
  {
    Sorting.SortIsSortedPermutation(leq, rows);
    forall k | 0 <= k < |rows| ensures Sorting.Sort(leq, rows)[k] in rows {
      assert Sorting.Sort(leq, rows)[k] in multiset(Sorting.Sort(leq, rows));
    }
  }

  lemma {:induction false} NextByPreference(allowlist: seq<string>, i: nat, seen: set<string>)
    requires i < |allowlist| && seen <= Models(allowlist[..i]) && allowlist[i] !in allowlist[..i]
    ensures ComesNext(ByPreference(allowlist), seen, allowlist[i])
  {
    PreferenceAt(allowlist, i);
    forall name | name in seen ensures Preference(allowlist, name) < i {
      assert name in allowlist[..i];
    }
  }

  // ---- the code ----

  /** `constrained` reports exactly whether some row of the table is left out. The table itself is only read. */
  method BuildPlan(requested: string, policy: FailoverPolicy, table: array<ModelProvider>, order: seq<string>)
    returns (eligible: Table, constrained: bool)
    ensures eligible == Plan(requested, policy, table[..], order)
    ensures constrained <==> multiset(eligible) != multiset(table[..])
  {
    var primary, rest := Split(table, requested);
    ghost var rows := table[..];
    Partition(rows, requested);
    if primary == [] {
      assert |multiset(rows)| == |rows|;
      return [], table.Length > 0;
    }
    match policy.kind
    case AnyModel =>
      var sorted := SortByRank(rest, order);
      eligible, constrained := primary + sorted, false;
      RanksArePreorders(RankMap(order), []);
      Sorting.SortIsSortedPermutation(ByRank(RankMap(order)), rest);
      assert multiset(eligible) == multiset(primary) + multiset(sorted);
    case Allowlist =>
      eligible, constrained := AddAllowed(requested, policy.allowlist, primary, rest, rows);
    case _ =>
      eligible, constrained := primary, |rest| > 0;
      assert primary + [] == primary;
      if rest != [] {
        assert rest[0] in multiset(rest);
        assert multiset(primary)[rest[0]] < multiset(rows)[rest[0]];
      }
  }

  method Split(table: array<ModelProvider>, requested: string) returns (primary: Table, rest: Table)
    ensures primary == RowsOf(table[..], requested) && rest == RowsNotOf(table[..], requested)
  {
    primary, rest := [], [];
    for i := 0 to table.Length
      invariant primary == RowsOf(table[..i], requested)
      invariant rest == RowsNotOf(table[..i], requested)
    {
      assert table[..i + 1][..i] == table[..i];
      if table[i].model == requested {
        primary := primary + [table[i]];
      } else {
        rest := rest + [table[i]];
      }
    }
    assert table[..table.Length] == table[..];
  }

  method SortByRank(rest: Table, order: seq<string>) returns (sorted: Table)
    ensures sorted == Sorting.Sort(ByRank(RankMap(order)), rest)
  {
    var rank: map<string, nat> := map[];
    for i := 0 to |order|
      invariant rank == RankMap(order[..i])
    {
      assert order[..i + 1][..i] == order[..i];
      rank := rank[order[i] := i + 1];
    }
    assert order[..|order|] == order;
    var a := new ModelProvider[|rest|](i requires 0 <= i < |rest| => rest[i]);
    assert a[..] == rest;
    Sorting.SortInPlace(ByRank(rank), a);
    sorted := a[..];
  }

  method AddAllowed(requested: string, allowlist: seq<string>, primary: Table, rest: Table, ghost table: Table)
    returns (eligible: Table, constrained: bool)
    requires multiset(table) == multiset(primary) + multiset(rest)
    requires forall r :: r in rest ==> r.model != requested
    ensures eligible == primary + Sorting.Sort(ByPreference(allowlist), RowsIn(rest, Models(allowlist)))
    ensures constrained <==> multiset(eligible) != multiset(table)
  {
    var allowed;
    eligible, allowed := AppendAllowed(requested, allowlist, primary, rest);
    RequestedHasNoRows(rest, requested, Models(allowlist));
    ghost var tail := Sorting.Sort(ByPreference(allowlist), RowsIn(rest, allowed));
    RanksArePreorders(map[], allowlist);
    Sorting.SortIsSortedPermutation(ByPreference(allowlist), RowsIn(rest, allowed));
    LeftOut(primary, rest, allowed, table, tail);
    constrained := HasOther(rest, allowed);
  }

  method AppendAllowed(requested: string, allowlist: seq<string>, primary: Table, rest: Table)
    returns (eligible: Table, allowed: set<string>)
    ensures allowed == Models(allowlist) - {requested}
    ensures eligible == primary + Sorting.Sort(ByPreference(allowlist), RowsIn(rest, allowed))
  {
    eligible, allowed := primary, {};
    NothingAllowed(rest);
    for i := 0 to |allowlist|
      invariant allowed == Models(allowlist[..i]) - {requested}
      invariant eligible == primary + Sorting.Sort(ByPreference(allowlist), RowsIn(rest, allowed))
    {
      eligible, allowed := AllowModel(requested, allowlist, i, primary, rest, eligible, allowed);
      ModelsStep(allowlist, i);
    }
    assert allowlist[..|allowlist|] == allowlist;
  }

  /** One turn of the loop: a model already accounted for is skipped. */
  method AllowModel(requested: string, allowlist: seq<string>, i: nat, primary: Table, rest: Table,
                    eligible: Table, allowed: set<string>)
    returns (more: Table, allowed': set<string>)
    requires i < |allowlist| && allowed == Models(allowlist[..i]) - {requested}
    requires eligible == primary + Sorting.Sort(ByPreference(allowlist), RowsIn(rest, allowed))
    ensures allowed' == Models(allowlist[..i]) + {allowlist[i]} - {requested}
    ensures more == primary + Sorting.Sort(ByPreference(allowlist), RowsIn(rest, allowed'))
  {
    var model := allowlist[i];
    AllowedAfter(Models(allowlist[..i]), model, requested);
    if model == requested || model in allowed {
      return eligible, allowed;
    }
    AllowedStep(requested, allowlist, i, rest, allowed);
    more := AppendRows(eligible, rest, model);
    Reassociate(primary, Sorting.Sort(ByPreference(allowlist), RowsIn(rest, allowed)), RowsOf(rest, model));
    allowed' := allowed + {model};
  }

  lemma {:induction false} AllowedAfter(before: set<string>, model: string, requested: string)
    ensures before + {model} - {requested} ==
      if model == requested || model in before - {requested} then before - {requested} else before - {requested} + {model}
  {
  }

  lemma {:induction false} Reassociate(a: Table, b: Table, c: Table)
    ensures a + b + c == a + (b + c)
  {
  }

  lemma {:induction false} AllowedStep(requested: string, allowlist: seq<string>, i: nat, rest: Table, seen: set<string>)
    requires i < |allowlist| && seen == Models(allowlist[..i]) - {requested}
    requires allowlist[i] !in seen && allowlist[i] != requested
    ensures
      var leq := ByPreference(allowlist);
      Sorting.Sort(leq, RowsIn(rest, seen + {allowlist[i]}))
        == Sorting.Sort(leq, RowsIn(rest, seen)) + RowsOf(rest, allowlist[i])
  {
    RanksArePreorders(map[], allowlist);
    NextByPreference(allowlist, i, seen);
    OneMoreModel(ByPreference(allowlist), allowlist[i], rest, seen);
  }

  lemma {:induction false} ModelsStep(allowlist: seq<string>, i: nat)
    requires i < |allowlist|
    ensures Models(allowlist[..i + 1]) == Models(allowlist[..i]) + {allowlist[i]}
  {
    assert allowlist[..i + 1] == allowlist[..i] + [allowlist[i]];
  }

  method AppendRows(eligible: Table, rest: Table, model: string) returns (more: Table)
    ensures more == eligible + RowsOf(rest, model)
  {
    more := eligible;
    for k := 0 to |rest|
      invariant more == eligible + RowsOf(rest[..k], model)
    {
      assert rest[..k + 1][..k] == rest[..k];
      if rest[k].model == model {
        more := more + [rest[k]];
      }
    }
    assert rest[..|rest|] == rest;
  }

  method HasOther(rest: Table, allowed: set<string>) returns (found: bool)
    ensures found <==> exists k :: 0 <= k < |rest| && rest[k].model !in allowed
  {
    found := false;
    for k := 0 to |rest|
      invariant !found && forall j :: 0 <= j < k ==> rest[j].model in allowed
    {
      if rest[k].model !in allowed {
        return true;
      }
    }
  }

  lemma {:induction false} NothingAllowed(rest: Table)
    ensures RowsIn(rest, {}) == []
  {
    if rest != [] {
      NothingAllowed(rest[..|rest| - 1]);
    }
  }

  lemma {:induction false} RequestedHasNoRows(rest: Table, requested: string, models: set<string>)
    requires forall r :: r in rest ==> r.model != requested
    ensures RowsIn(rest, models - {requested}) == RowsIn(rest, models)
  {
    if rest != [] {
      RequestedHasNoRows(rest[..|rest| - 1], requested, models);
      assert rest[|rest| - 1] in rest;
    }
  }
}
