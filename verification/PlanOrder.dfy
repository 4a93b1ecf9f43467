/** Who goes before whom in a plan, stated on positions in the configuration alone. */
module PlanOrder {
  import opened Domain
  import opened FailoverPlan
  import opened PlanProperties
  import Sorting

  /** The rows that fit, in their order. */
  function Having(rows: Table, fits: ModelProvider -> bool): Table {
    if rows == [] then [] else (if fits(rows[0]) then [rows[0]] else []) + Having(rows[1..], fits)
  }

  function Serving(model: string): ModelProvider -> bool {
    (r: ModelProvider) => r.model == model
  }

  /** Substitutes for `requested`, at one provider. */
  function Offered(requested: string, provider: string): ModelProvider -> bool {
    (r: ModelProvider) => r.model != requested && r.provider == provider
  }

  /** Substitutes for `requested`, at providers the order does not list or at `also`. */
  function OffTheList(requested: string, order: seq<string>, also: string): ModelProvider -> bool {
    (r: ModelProvider) => r.model != requested && (r.provider !in order || r.provider == also)
  }

  predicate LastAt(names: seq<string>, name: string, k: nat) {
    k < |names| && names[k] == name && forall j :: k < j < |names| ==> names[j] != name
  }

  predicate FirstAt(names: seq<string>, name: string, k: nat) {
    k < |names| && names[k] == name && forall j :: 0 <= j < k ==> names[j] != name
  }

  // ---- selections are in table order ----

  lemma {:induction false} HavingPush(rows: Table, r: ModelProvider, fits: ModelProvider -> bool)
    ensures Having(rows + [r], fits) == Having(rows, fits) + if fits(r) then [r] else []
  {
    if rows == [] {
      assert rows + [r] == [r] && [r][1..] == [];
    } else {
      assert (rows + [r])[1..] == rows[1..] + [r];
      HavingPush(rows[1..], r, fits);
    }
  }

  lemma {:induction false} HavingLast(rows: Table, fits: ModelProvider -> bool)
    requires rows != []
    ensures
      var front, last := rows[..|rows| - 1], rows[|rows| - 1];
      Having(rows, fits) == Having(front, fits) + if fits(last) then [last] else []
  {
    HavingPush(rows[..|rows| - 1], rows[|rows| - 1], fits);
    assert rows[..|rows| - 1] + [rows[|rows| - 1]] == rows;
  }

  lemma {:induction false} RowsOfIsHaving(table: Table, model: string)
    ensures RowsOf(table, model) == Having(table, Serving(model))
  {
    if table != [] {
      RowsOfIsHaving(table[..|table| - 1], model);
      HavingLast(table, Serving(model));
    }
  }

  /** Leaving out the requested model's rows loses nothing that does not serve it. */
  lemma {:induction false} RestHas(table: Table, requested: string, fits: ModelProvider -> bool)
    requires forall r :: fits(r) ==> r.model != requested
    ensures Having(RowsNotOf(table, requested), fits) == Having(table, fits)
  {
    if table != [] {
      var front, last := table[..|table| - 1], table[|table| - 1];
      RestHas(front, requested, fits);
      HavingLast(table, fits);
      if last.model != requested {
        HavingPush(RowsNotOf(front, requested), last, fits);
      } else {
        assert RowsNotOf(table, requested) == RowsNotOf(front, requested);
        assert !fits(last);
      }
    }
  }

  lemma {:induction false} InsertKeepsTied(leq: (ModelProvider, ModelProvider) -> bool, rows: Table, x: ModelProvider, fits: ModelProvider -> bool)
    requires forall a, b :: fits(a) && fits(b) ==> leq(a, b)
    ensures Having(Sorting.Insert(leq, rows, x), fits) == Having(rows + [x], fits)
  {
    HavingPush(rows, x, fits);
    if rows != [] && !leq(rows[|rows| - 1], x) {
      var front, last := rows[..|rows| - 1], rows[|rows| - 1];
      InsertKeepsTied(leq, front, x, fits);
      HavingPush(Sorting.Insert(leq, front, x), last, fits);
      HavingPush(front, x, fits);
      HavingLast(rows, fits);
      assert !fits(last) || !fits(x);
    }
  }

  /** Rows the order does not tell apart stay as they were. */
  lemma {:induction false} SortKeepsTied(leq: (ModelProvider, ModelProvider) -> bool, rows: Table, fits: ModelProvider -> bool)
    requires forall a, b :: fits(a) && fits(b) ==> leq(a, b)
    ensures Having(Sorting.Sort(leq, rows), fits) == Having(rows, fits)
  {
    if rows != [] {
      var front, last := rows[..|rows| - 1], rows[|rows| - 1];
      SortKeepsTied(leq, front, fits);
      InsertKeepsTied(leq, Sorting.Sort(leq, front), last, fits);
      HavingPush(Sorting.Sort(leq, front), last, fits);
      HavingLast(rows, fits);
    }
  }

  // ---- the requested model ----

  /** A served model's own rows come first, all of them, in table order; substitutes serve other models. */
  lemma {:induction false} RequestedRowsLead(requested: string, policy: FailoverPolicy, table: Table, order: seq<string>)
    ensures
      var own, plan := Having(table, Serving(requested)), Plan(requested, policy, table, order);
      && (own == [] ==> plan == [])
      && own <= plan
      && (own != [] ==> RowsOf(table, requested) != [] && plan == own + Tail(requested, policy, table, order))
      && forall k :: |own| <= k < |plan| ==> plan[k].model != requested
  {
    RowsOfIsHaving(table, requested);
    RequestedComesFirst(requested, policy, table, order);
  }

  // ---- under any ----

  lemma {:induction false} RankOfListed(order: seq<string>, provider: string, k: nat)
    requires LastAt(order, provider, k)
    ensures ProviderRank(RankMap(order), provider) == k + 1
  {
    RankIsLastPosition(order, provider);
  }

  lemma {:induction false} RankOfUnlisted(order: seq<string>, provider: string)
    requires provider !in order
    ensures ProviderRank(RankMap(order), provider) == |set p | p in order| + 1
  {
    RankIsLastPosition(order, provider);
    assert RankMap(order).Keys == set p | p in order by {
      forall p ensures p in RankMap(order) <==> p in order {
        RankIsLastPosition(order, p);
      }
    }
  }

  lemma {:induction false} TailByRank(requested: string, policy: FailoverPolicy, table: Table, order: seq<string>)
    requires policy.kind == AnyModel && RowsOf(table, requested) != []
    ensures
      var tail, rank := Tail(requested, policy, table, order), RankMap(order);
      && tail == Sorting.Sort(ByRank(rank), RowsNotOf(table, requested))
      && forall i, j :: 0 <= i < j < |tail| ==> ProviderRank(rank, tail[i].provider) <= ProviderRank(rank, tail[j].provider)
  {
    var tail := Substitutes(requested, policy, table, order);
    assert Tail(requested, policy, table, order) == tail;
    RanksArePreorders(RankMap(order), []);
    Sorting.SortIsSortedPermutation(ByRank(RankMap(order)), RowsNotOf(table, requested));
    forall i, j | 0 <= i < j < |tail|
      ensures ProviderRank(RankMap(order), tail[i].provider) <= ProviderRank(RankMap(order), tail[j].provider)
    {
      assert ByRank(RankMap(order))(tail[i], tail[j]);
    }
  }

  /**
   * Listed providers are tried in the order listed, a repeated one where it stands last;
   * each provider's substitutes keep table order.
   */
  lemma {:induction false} ListedInOrder(requested: string, policy: FailoverPolicy, table: Table, order: seq<string>)
    requires policy.kind == AnyModel && RowsOf(table, requested) != []
    ensures
      var tail := Tail(requested, policy, table, order);
      forall i, j, a: nat, b: nat ::
        0 <= i < j < |tail| && LastAt(order, tail[i].provider, a) && LastAt(order, tail[j].provider, b) ==> a <= b
    ensures forall p ::
      Having(Tail(requested, policy, table, order), Offered(requested, p)) == Having(table, Offered(requested, p))
  {
    var tail, rank := Tail(requested, policy, table, order), RankMap(order);
    TailByRank(requested, policy, table, order);
    forall i, j, a: nat, b: nat |
      0 <= i < j < |tail| && LastAt(order, tail[i].provider, a) && LastAt(order, tail[j].provider, b)
      ensures a <= b
    {
      RankOfListed(order, tail[i].provider, a);
      RankOfListed(order, tail[j].provider, b);
    }
    forall p ensures Having(tail, Offered(requested, p)) == Having(table, Offered(requested, p)) {
      SortKeepsTied(ByRank(rank), RowsNotOf(table, requested), Offered(requested, p));
      RestHas(table, requested, Offered(requested, p));
    }
  }

  /**
   * Providers the order does not list stand, in table order, where one listed at the position
   * that counts the different names would: behind those before it, ahead of those after it,
   * and in table order with one that is listed there.
   */
  lemma {:induction false} UnlistedByTheCount(requested: string, policy: FailoverPolicy, table: Table, order: seq<string>)
    requires policy.kind == AnyModel && RowsOf(table, requested) != []
    ensures
      var tail, different := Tail(requested, policy, table, order), |set p | p in order|;
      && (forall i, j, b: nat ::
            0 <= i < j < |tail| && tail[i].provider !in order && LastAt(order, tail[j].provider, b) ==> different <= b)
      && (forall i, j, a: nat ::
            0 <= i < j < |tail| && LastAt(order, tail[i].provider, a) && tail[j].provider !in order ==> a <= different)
      && forall also :: also !in order || LastAt(order, also, different) ==>
           Having(tail, OffTheList(requested, order, also)) == Having(table, OffTheList(requested, order, also))
  {
    var tail, different := Tail(requested, policy, table, order), |set p | p in order|;
    TailByRank(requested, policy, table, order);
    forall i, j, b: nat | 0 <= i < j < |tail| && tail[i].provider !in order && LastAt(order, tail[j].provider, b)
      ensures different <= b
    {
      RankOfUnlisted(order, tail[i].provider);
      RankOfListed(order, tail[j].provider, b);
    }
    forall i, j, a: nat | 0 <= i < j < |tail| && LastAt(order, tail[i].provider, a) && tail[j].provider !in order
      ensures a <= different
    {
      RankOfListed(order, tail[i].provider, a);
      RankOfUnlisted(order, tail[j].provider);
    }
    forall also | also !in order || LastAt(order, also, different)
      ensures Having(tail, OffTheList(requested, order, also)) == Having(table, OffTheList(requested, order, also))
    {
      AllTied(requested, order, also);
      SortKeepsTied(ByRank(RankMap(order)), RowsNotOf(table, requested), OffTheList(requested, order, also));
      RestHas(table, requested, OffTheList(requested, order, also));
    }
  }

  lemma {:induction false} AllTied(requested: string, order: seq<string>, also: string)
    requires also !in order || LastAt(order, also, |set p | p in order|)
    ensures forall r :: OffTheList(requested, order, also)(r) ==>
              ProviderRank(RankMap(order), r.provider) == |set p | p in order| + 1
  {
    forall r | OffTheList(requested, order, also)(r)
      ensures ProviderRank(RankMap(order), r.provider) == |set p | p in order| + 1
    {
      if r.provider !in order {
        RankOfUnlisted(order, r.provider);
      } else {
        RankOfListed(order, also, |set p | p in order|);
      }
    }
  }

  // ---- under an allowlist, and otherwise ----

  /** The app's preferences in the order it first names them, each with all its rows in table order; nothing else. */
  lemma {:induction false} PreferredInOrder(requested: string, policy: FailoverPolicy, table: Table, order: seq<string>)
    requires policy.kind == Allowlist && RowsOf(table, requested) != []
    ensures
      var tail := Tail(requested, policy, table, order);
      forall i, j, a: nat, b: nat ::
        0 <= i < j < |tail| && FirstAt(policy.allowlist, tail[i].model, a) && FirstAt(policy.allowlist, tail[j].model, b) ==> a <= b
    ensures
      var tail := Tail(requested, policy, table, order);
      forall model :: Having(tail, Serving(model))
        == if model in policy.allowlist && model != requested then Having(table, Serving(model)) else []
  {
    var tail := Tail(requested, policy, table, order);
    assert tail == Substitutes(requested, policy, table, order);
    forall i, j, a: nat, b: nat |
      0 <= i < j < |tail| && FirstAt(policy.allowlist, tail[i].model, a) && FirstAt(policy.allowlist, tail[j].model, b)
      ensures a <= b
    {
      AllowlistTailFollowsPreference(requested, policy, table, order, tail[i].model);
      PreferenceOfFirst(policy.allowlist, tail[i].model, a);
      PreferenceOfFirst(policy.allowlist, tail[j].model, b);
    }
    forall model
      ensures Having(tail, Serving(model))
           == if model in policy.allowlist && model != requested then Having(table, Serving(model)) else []
    {
      AllowlistTailFollowsPreference(requested, policy, table, order, model);
      RowsOfIsHaving(tail, model);
      RowsOfIsHaving(table, model);
    }
  }

  lemma {:induction false} PreferenceOfFirst(allowlist: seq<string>, model: string, k: nat)
    requires FirstAt(allowlist, model, k)
    ensures Preference(allowlist, model) == k
  {
    if k > 0 {
      assert allowlist[0] != model;
      PreferenceOfFirst(allowlist[1..], model, k - 1);
    }
  }

  /** Under same-model, and any kind the gateway does not know, there are no substitutes. */
  lemma {:induction false} OtherwiseNoSubstitutes(requested: string, policy: FailoverPolicy, table: Table, order: seq<string>)
    requires policy.kind != AnyModel && policy.kind != Allowlist
    ensures Plan(requested, policy, table, order) == Having(table, Serving(requested))
  {
    RowsOfIsHaving(table, requested);
    assert RowsOf(table, requested) + [] == RowsOf(table, requested);
  }
}
