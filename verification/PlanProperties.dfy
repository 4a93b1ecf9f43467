/** What every failover plan satisfies. */
module PlanProperties {
  import opened Domain
  import opened FailoverPlan
  import Sorting

  lemma {:induction false} SubstitutesSelect(requested: string, policy: FailoverPolicy, table: Table, order: seq<string>)
    ensures multiset(Substitutes(requested, policy, table, order)) <= multiset(RowsNotOf(table, requested))
    ensures policy.kind == AnyModel ==>
      multiset(Substitutes(requested, policy, table, order)) == multiset(RowsNotOf(table, requested))
    ensures policy.kind == Allowlist ==>
      multiset(Substitutes(requested, policy, table, order))
        == multiset(RowsIn(RowsNotOf(table, requested), Models(policy.allowlist)))
  {
    var rest := RowsNotOf(table, requested);
    RanksArePreorders(RankMap(order), policy.allowlist);
    match policy.kind
    case AnyModel => Sorting.SortIsSortedPermutation(ByRank(RankMap(order)), rest);
    case Allowlist =>
      var chosen := RowsIn(rest, Models(policy.allowlist));
      Sorting.SortIsSortedPermutation(ByPreference(policy.allowlist), chosen);
      RowsInSelects(rest, Models(policy.allowlist));
    case _ =>
  }

  /** No row is invented or used twice. */
  lemma {:induction false} PlanIsSubMultiset(requested: string, policy: FailoverPolicy, table: Table, order: seq<string>)
    ensures multiset(Plan(requested, policy, table, order)) <= multiset(table)
  {
    Partition(table, requested);
    SubstitutesSelect(requested, policy, table, order);
  }

  /** The requested model's rows, in table order, then rows of other models only; without a primary, nothing. */
  lemma {:induction false} RequestedComesFirst(requested: string, policy: FailoverPolicy, table: Table, order: seq<string>)
    ensures
      var plan, primary := Plan(requested, policy, table, order), RowsOf(table, requested);
      && (primary == [] ==> plan == [])
      && (primary != [] ==> primary <= plan)
      && forall k :: |primary| <= k < |plan| ==> plan[k].model != requested
  {
    SubstitutesSelect(requested, policy, table, order);
    var tail := Substitutes(requested, policy, table, order);
    forall k | 0 <= k < |tail| ensures tail[k].model != requested {
      assert tail[k] in multiset(tail);
      assert tail[k] in RowsNotOf(table, requested);
    }
  }

  /** Under `any`, a served model's plan is the whole table. */
  lemma {:induction false} AnyUsesWholeTable(requested: string, policy: FailoverPolicy, table: Table, order: seq<string>)
    requires policy.kind == AnyModel && RowsOf(table, requested) != []
    ensures multiset(Plan(requested, policy, table, order)) == multiset(table)
  {
    Partition(table, requested);
    SubstitutesSelect(requested, policy, table, order);
  }

  /** Which models a policy lets into a plan. */
  predicate Permits(policy: FailoverPolicy, requested: string, model: string) {
    || model == requested
    || policy.kind == AnyModel
    || (policy.kind == Allowlist && model in policy.allowlist)
  }

  /** A row of the table is planned exactly when its model is permitted and the requested model is served. */
  lemma {:induction false} PlanRows(requested: string, policy: FailoverPolicy, table: Table, order: seq<string>, r: ModelProvider)
    ensures r in Plan(requested, policy, table, order) <==>
      RowsOf(table, requested) != [] && r in table && Permits(policy, requested, r.model)
  {
    var plan, primary, rest := Plan(requested, policy, table, order), RowsOf(table, requested), RowsNotOf(table, requested);
    var tail := Substitutes(requested, policy, table, order);
    Partition(table, requested);
    SubstitutesSelect(requested, policy, table, order);
    assert r in table <==> r in multiset(primary) + multiset(rest);
    assert r in table <==> r in primary || r in rest;
    assert r in tail <==> r in multiset(tail);
    RowInSelection(rest, Models(policy.allowlist), r);
    assert r in RowsIn(rest, Models(policy.allowlist)) <==> r in multiset(RowsIn(rest, Models(policy.allowlist)));
    assert r in rest <==> r in multiset(rest);
    assert r in primary ==> r.model == requested;
    assert r in rest ==> r.model != requested;
  }

  ghost predicate AllPermitted(policy: FailoverPolicy, requested: string, table: Table) {
    forall r :: r in table ==> Permits(policy, requested, r.model)
  }

  /** A served model's plan leaves something out exactly when some row's model is not permitted. */
  lemma {:induction false} ConstrainedIff(requested: string, policy: FailoverPolicy, table: Table, order: seq<string>)
    requires RowsOf(table, requested) != []
    ensures multiset(Plan(requested, policy, table, order)) == multiset(table) <==> AllPermitted(policy, requested, table)
  {
    var plan := Plan(requested, policy, table, order);
    if AllPermitted(policy, requested, table) {
      PermittedAllUsed(requested, policy, table, order);
    } else {
      var r :| r in table && !Permits(policy, requested, r.model);
      PlanRows(requested, policy, table, order, r);
      assert r in multiset(table) && r !in multiset(plan);
    }
  }

  lemma {:induction false} PermittedAllUsed(requested: string, policy: FailoverPolicy, table: Table, order: seq<string>)
    requires RowsOf(table, requested) != [] && AllPermitted(policy, requested, table)
    ensures multiset(Plan(requested, policy, table, order)) == multiset(table)
  {
    var rest := RowsNotOf(table, requested);
    Partition(table, requested);
    SubstitutesSelect(requested, policy, table, order);
    forall k | 0 <= k < |rest| ensures rest[k] in table && Permits(policy, requested, rest[k].model) {
      assert rest[k] in multiset(rest);
      assert rest[k] in multiset(table);
    }
    match policy.kind
    case AnyModel =>
    case Allowlist =>
      RowsInKeepsAll(rest, Models(policy.allowlist));
    case _ =>
      assert rest == [];
  }

  lemma {:induction false} RowInSelection(table: Table, models: set<string>, r: ModelProvider)
    ensures r in RowsIn(table, models) <==> r in table && r.model in models
  {
    if table != [] {
      RowInSelection(table[..|table| - 1], models, r);
      assert table == table[..|table| - 1] + [table[|table| - 1]];
    }
  }

  // ---- order of the tail ----

  /** Under `any` the tail is sorted by failover rank, and rows of equal rank keep table order. */
  lemma {:induction false} AnyTailIsStablySorted(
    requested: string, policy: FailoverPolicy, table: Table, order: seq<string>, y: ModelProvider)
    requires policy.kind == AnyModel
    ensures
      var tail, leq := Substitutes(requested, policy, table, order), ByRank(RankMap(order));
      && Sorting.Sorted(leq, tail)
      && Sorting.Ties(leq, tail, y) == Sorting.Ties(leq, RowsNotOf(table, requested), y)
  {
    RanksArePreorders(RankMap(order), []);
    Sorting.SortIsSortedPermutation(ByRank(RankMap(order)), RowsNotOf(table, requested));
    Sorting.SortIsStable(ByRank(RankMap(order)), RowsNotOf(table, requested), y);
  }

  /** Under an allowlist the tail follows the app's first mention of each model, each model's rows in table order. */
  lemma {:induction false} AllowlistTailFollowsPreference(
    requested: string, policy: FailoverPolicy, table: Table, order: seq<string>, model: string)
    requires policy.kind == Allowlist
    ensures
      var tail := Substitutes(requested, policy, table, order);
      && (forall i, j :: 0 <= i < j < |tail| ==>
            Preference(policy.allowlist, tail[i].model) <= Preference(policy.allowlist, tail[j].model))
      && RowsOf(tail, model) == if model in policy.allowlist && model != requested then RowsOf(table, model) else []
  {
    var rest := RowsNotOf(table, requested);
    var chosen := RowsIn(rest, Models(policy.allowlist));
    var leq := ByPreference(policy.allowlist);
    var tail := Sorting.Sort(leq, chosen);
    RanksArePreorders(map[], policy.allowlist);
    Sorting.SortIsSortedPermutation(leq, chosen);
    forall i, j | 0 <= i < j < |tail|
      ensures Preference(policy.allowlist, tail[i].model) <= Preference(policy.allowlist, tail[j].model)
    {
      assert leq(tail[i], tail[j]);
    }
    SortKeepsRowsOf(policy.allowlist, chosen, model);
    ChosenRowsOf(table, requested, Models(policy.allowlist), model);
  }

  lemma {:induction false} ChosenRowsOf(table: Table, requested: string, models: set<string>, model: string)
    ensures RowsOf(RowsIn(RowsNotOf(table, requested), models), model)
         == if model in models && model != requested then RowsOf(table, model) else []
  {
    if table != [] {
      var front, last := table[..|table| - 1], table[|table| - 1];
      ChosenRowsOf(front, requested, models, model);
      var rest := RowsNotOf(front, requested);
      if last.model == requested {
        assert RowsNotOf(table, requested) == rest;
        assert model != requested ==> RowsOf(table, model) == RowsOf(front, model);
      } else {
        assert RowsNotOf(table, requested) == rest + [last];
        Push(rest, last, models, model);
        Push(RowsIn(rest, models), last, models, model);
        assert RowsOf(table, model) == if last.model == model then RowsOf(front, model) + [last] else RowsOf(front, model);
      }
    }
  }

  lemma {:induction false} Push(rows: Table, r: ModelProvider, models: set<string>, model: string)
    ensures RowsIn(rows + [r], models) == if r.model in models then RowsIn(rows, models) + [r] else RowsIn(rows, models)
    ensures RowsOf(rows + [r], model) == if r.model == model then RowsOf(rows, model) + [r] else RowsOf(rows, model)
  {
    assert (rows + [r])[..|rows|] == rows;
  }

  lemma {:induction false} SortKeepsRowsOf(allowlist: seq<string>, rows: Table, model: string)
    requires forall k :: 0 <= k < |rows| ==> rows[k].model in allowlist
    ensures RowsOf(Sorting.Sort(ByPreference(allowlist), rows), model) == RowsOf(rows, model)
  {
    if rows != [] {
      var front, last := rows[..|rows| - 1], rows[|rows| - 1];
      SortKeepsRowsOf(allowlist, front, model);
      var sorted := Sorting.Sort(ByPreference(allowlist), front);
      RanksArePreorders(map[], allowlist);
      Sorting.SortIsSortedPermutation(ByPreference(allowlist), front);
      forall k | 0 <= k < |sorted| ensures sorted[k].model in allowlist {
        assert sorted[k] in multiset(sorted);
        assert sorted[k] in front;
      }
      InsertKeepsRowsOf(allowlist, sorted, last, model);
      assert (sorted + [last])[..|sorted|] == sorted;
    }
  }

  lemma {:induction false} InsertKeepsRowsOf(allowlist: seq<string>, rows: Table, r: ModelProvider, model: string)
    requires forall k :: 0 <= k < |rows| ==> rows[k].model in allowlist
    requires r.model in allowlist
    ensures RowsOf(Sorting.Insert(ByPreference(allowlist), rows, r), model) == RowsOf(rows + [r], model)
  {
    var leq := ByPreference(allowlist);
    assert (rows + [r])[..|rows|] == rows;
    if rows != [] && !leq(rows[|rows| - 1], r) {
      var front, last := rows[..|rows| - 1], rows[|rows| - 1];
      InsertKeepsRowsOf(allowlist, front, r, model);
      var inserted := Sorting.Insert(leq, front, r);
      assert (inserted + [last])[..|inserted|] == inserted;
      assert (front + [r])[..|front|] == front;
      assert last.model != r.model;
    }
  }

  // ---- providers the failover order does not list ----

  predicate NoDuplicates(order: seq<string>) {
    forall i, j :: 0 <= i < j < |order| ==> order[i] != order[j]
  }

  predicate UnlistedFollowListed(order: seq<string>, tail: Table) {
    forall i, j :: 0 <= i < j < |tail| && tail[j].provider in order ==> tail[i].provider in order
  }

  lemma {:induction false} RankMapSize(order: seq<string>)
    ensures |RankMap(order)| <= |order|
    ensures |RankMap(order)| == |order| <==> NoDuplicates(order)
  {
    if order != [] {
      var front, last := order[..|order| - 1], order[|order| - 1];
      RankMapSize(front);
      RankIsLastPosition(front, last);
      assert RankMap(order).Keys == RankMap(front).Keys + {last};
      if last in front {
        assert RankMap(order).Keys == RankMap(front).Keys;
        var k :| 0 <= k < |front| && front[k] == last;
        assert order[k] == order[|order| - 1];
      } else {
        assert |RankMap(order).Keys| == |RankMap(front).Keys| + 1;
        assert NoDuplicates(front) ==> NoDuplicates(order);
        assert NoDuplicates(order) ==> NoDuplicates(front);
      }
    }
  }

  /** A name longer than every listed one. */
  function Unlisted(order: seq<string>): (name: string)
    ensures name !in order
    ensures forall k :: 0 <= k < |order| ==> |order[k]| < |name|
  {
    if order == [] then "x"
    else
      var name := Unlisted(order[1..]);
      var longer := name + order[0];
      assert forall k :: 0 < k < |order| ==> order[k] == order[1..][k - 1];
      longer
  }

  /** What the plan of a served model holds after the model's own rows. */
  function Tail(requested: string, policy: FailoverPolicy, table: Table, order: seq<string>): Table
    requires RowsOf(table, requested) != []
  {
    Plan(requested, policy, table, order)[|RowsOf(table, requested)|..]
  }

  /**
   * The code means unlisted providers to go last. They do, in the plan of every served
   * model over every table, exactly when the failover order repeats no provider: a
   * repeat pushes listed ranks past the unlisted one.
   */
  lemma {:induction false} UnlistedLastIffNoDuplicates(order: seq<string>, policy: FailoverPolicy)
    requires policy.kind == AnyModel
    ensures
      NoDuplicates(order) <==>
        forall requested, table | RowsOf(table, requested) != [] ::
          UnlistedFollowListed(order, Tail(requested, policy, table, order))
  {
    if NoDuplicates(order) {
      forall requested, table | RowsOf(table, requested) != []
        ensures UnlistedFollowListed(order, Tail(requested, policy, table, order))
      {
        UnlistedLast(order, policy, requested, table);
        assert Tail(requested, policy, table, order) == Substitutes(requested, policy, table, order);
      }
    } else {
      RepeatMisplaces(order, policy);
    }
  }

  /** A misplacing table: the requested model's one row, then an unlisted provider ahead of the last listed one. */
  function Misplaced(order: seq<string>): Table
    requires order != []
  {
    var last := order[|order| - 1];
    [ModelProvider("r", last, "e"), ModelProvider("m", Unlisted(order), "e"), ModelProvider("m", last, "e")]
  }

  lemma {:induction false} RepeatMisplaces(order: seq<string>, policy: FailoverPolicy)
    requires policy.kind == AnyModel && !NoDuplicates(order)
    ensures RowsOf(Misplaced(order), "r") == Misplaced(order)[..1]
    ensures Plan("r", policy, Misplaced(order), order) == Misplaced(order)
    ensures !UnlistedFollowListed(order, Tail("r", policy, Misplaced(order), order))
  {
    var table := Misplaced(order);
    var u, l := table[1], table[2];
    RankMapSize(order);
    RankIsLastPosition(order, l.provider);
    RankIsLastPosition(order, u.provider);
    assert ByRank(RankMap(order))(u, l);
    SortedPair(ByRank(RankMap(order)), u, l);
    FirstApart(table[0], u, l);
    assert Tail("r", policy, table, order) == [u, l];
  }

  lemma {:induction false} SortedPair(leq: (ModelProvider, ModelProvider) -> bool, u: ModelProvider, l: ModelProvider)
    requires leq(u, l)
    ensures Sorting.Sort(leq, [u, l]) == [u, l]
  {
    assert [u, l][..1] == [u] && [u][..0] == [];
  }

  lemma {:induction false} FirstApart(r: ModelProvider, u: ModelProvider, l: ModelProvider)
    requires u.model != r.model && l.model != r.model
    ensures RowsOf([r, u, l], r.model) == [r] && RowsNotOf([r, u, l], r.model) == [u, l]
  {
    assert [r, u, l][..2] == [r, u] && [r, u][..1] == [r] && [r][..0] == [];
    assert RowsOf([r], r.model) == [r] && RowsNotOf([r], r.model) == [];
    assert RowsOf([r, u], r.model) == [r] && RowsNotOf([r, u], r.model) == [u];
  }

  lemma {:induction false} UnlistedLast(order: seq<string>, policy: FailoverPolicy, requested: string, table: Table)
    requires policy.kind == AnyModel && NoDuplicates(order)
    ensures UnlistedFollowListed(order, Substitutes(requested, policy, table, order))
  {
    RankMapSize(order);
    var tail := Substitutes(requested, policy, table, order);
    RanksArePreorders(RankMap(order), []);
    Sorting.SortIsSortedPermutation(ByRank(RankMap(order)), RowsNotOf(table, requested));
    forall i, j | 0 <= i < j < |tail| && tail[j].provider in order ensures tail[i].provider in order {
      assert ByRank(RankMap(order))(tail[i], tail[j]);
      RankIsLastPosition(order, tail[i].provider);
      RankIsLastPosition(order, tail[j].provider);
    }
  }
}
