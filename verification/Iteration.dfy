/** Walking a map: its keys in an order nobody controls, and the sorted names that forget it. */
module Iteration {
  import opened Sorting

  /** A map's keys in some iteration order. */
  ghost predicate IterationOf<V>(order: seq<string>, m: map<string, V>) {
    multiset(order) == multiset(m.Keys)
  }

  lemma {:induction false} IterationCoversKeys<V>(order: seq<string>, m: map<string, V>)
    requires IterationOf(order, m)
    ensures forall p :: p in order <==> p in m
  {
    forall p ensures p in order <==> p in m {
      assert p in order <==> p in multiset(order);
      assert p in m.Keys <==> p in multiset(m.Keys);
    }
  }

  lemma {:induction false} TwiceCounted<T>(s: seq<T>, i: nat, j: nat)
    requires i < j < |s| && s[i] == s[j]
    ensures multiset(s)[s[i]] >= 2
  {
    assert s == s[..i] + [s[i]] + s[i + 1..j] + [s[j]] + s[j + 1..];
  }

  lemma {:induction false} IterationHasNoDuplicates<V>(order: seq<string>, m: map<string, V>)
    requires IterationOf(order, m)
    ensures forall i, j :: 0 <= i < j < |order| ==> order[i] != order[j]
  {
    forall i, j | 0 <= i < j < |order| && order[i] == order[j] ensures false {
      TwiceCounted(order, i, j);
    }
  }

  /** Whatever the walk, the sorted names are the same. */
  lemma {:induction false} SortedKeysForgetWalk<V>(walk: seq<string>, other: seq<string>, m: map<string, V>)
    requires IterationOf(walk, m) && IterationOf(other, m)
    ensures Sort(StringOrder(), walk) == Sort(StringOrder(), other)
  {
    StringOrderIsTotal();
    SortForgetsOrder(StringOrder(), walk, other);
  }

  lemma {:induction false} SortedKeysIterate<V>(walk: seq<string>, m: map<string, V>)
    requires IterationOf(walk, m)
    ensures IterationOf(Sort(StringOrder(), walk), m)
  {
    StringOrderIsTotal();
    SortIsSortedPermutation(StringOrder(), walk);
  }

  /** Append every key, then sort in place. */
  method SortedKeys<V>(walk: seq<string>, ghost m: map<string, V>) returns (names: seq<string>)
    requires IterationOf(walk, m)
    ensures names == Sort(StringOrder(), walk)
    ensures IterationOf(names, m) && Sorted(StringOrder(), names)
  {
    var a := new string[|walk|](i requires 0 <= i < |walk| => walk[i]);
    assert a[..] == walk;
    SortInPlace(StringOrder(), a);
    names := a[..];
    StringOrderIsTotal();
    SortIsSortedPermutation(StringOrder(), walk);
  }
}
