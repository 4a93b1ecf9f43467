/**
 * Stable sorting: the specification of `sort.SliceStable` and `sort.Strings`.
 * `Sort` is pinned down twice: by order plus stability for a preorder, and by
 * order plus multiset for a total order.
 */
module Sorting {

  ghost predicate TotalPreorder<T(!new)>(leq: (T, T) -> bool) {
    && (forall x, y :: leq(x, y) || leq(y, x))
    && (forall x, y, z :: leq(x, y) && leq(y, z) ==> leq(x, z))
  }

  ghost predicate Antisymmetric<T(!new)>(leq: (T, T) -> bool) {
    forall x, y :: leq(x, y) && leq(y, x) ==> x == y
  }

  ghost predicate Sorted<T>(leq: (T, T) -> bool, s: seq<T>) {
    forall i, j :: 0 <= i < j < |s| ==> leq(s[i], s[j])
  }

  /** Inserts `x` behind every element that may precede it. */
  function Insert<T>(leq: (T, T) -> bool, s: seq<T>, x: T): (r: seq<T>)
    ensures |r| == |s| + 1
  {
    if s == [] || leq(s[|s| - 1], x) then s + [x]
    else Insert(leq, s[..|s| - 1], x) + [s[|s| - 1]]
  }

  function Sort<T>(leq: (T, T) -> bool, s: seq<T>): (r: seq<T>)
    ensures |r| == |s|
  {
    if s == [] then [] else Insert(leq, Sort(leq, s[..|s| - 1]), s[|s| - 1])
  }

  /** The elements of `s` tied with `y`, in their order of appearance. */
  function Ties<T>(leq: (T, T) -> bool, s: seq<T>, y: T): seq<T> {
    if s == [] then []
    else
      var last := s[|s| - 1];
      Ties(leq, s[..|s| - 1], y) + if leq(last, y) && leq(y, last) then [last] else []
  }

  // ---- Sort is ordered, a permutation, and stable ----

  lemma {:induction false} InsertSorted<T(!new)>(leq: (T, T) -> bool, s: seq<T>, x: T)
    requires TotalPreorder(leq) && Sorted(leq, s)
    ensures Sorted(leq, Insert(leq, s, x))
    ensures multiset(Insert(leq, s, x)) == multiset(s) + multiset{x}
  {
    if s == [] || leq(s[|s| - 1], x) {
      forall i | 0 <= i < |s| ensures leq(s[i], x) {
        assert i < |s| - 1 ==> leq(s[i], s[|s| - 1]);
      }
    } else {
      var front, last := s[..|s| - 1], s[|s| - 1];
      assert s == front + [last];
      InsertSorted(leq, front, x);
      var r := Insert(leq, front, x);
      forall i | 0 <= i < |r| ensures leq(r[i], last) {
        assert r[i] in multiset(r);
        assert r[i] in multiset(front) || r[i] == x;
        if r[i] != x {
          assert r[i] in front;
        }
      }
    }
  }

  lemma {:induction false} SortIsSortedPermutation<T(!new)>(leq: (T, T) -> bool, s: seq<T>)
    requires TotalPreorder(leq)
    ensures Sorted(leq, Sort(leq, s))
    ensures multiset(Sort(leq, s)) == multiset(s)
  {
    if s != [] {
      var front, last := s[..|s| - 1], s[|s| - 1];
      assert s == front + [last];
      SortIsSortedPermutation(leq, front);
      InsertSorted(leq, Sort(leq, front), last);
    }
  }

  lemma {:induction false} InsertKeepsTies<T(!new)>(leq: (T, T) -> bool, s: seq<T>, x: T, y: T)
    requires TotalPreorder(leq)
    ensures Ties(leq, Insert(leq, s, x), y) == Ties(leq, s + [x], y)
  {
    assert (s + [x])[..|s|] == s;
    if s != [] && !leq(s[|s| - 1], x) {
      var front, last := s[..|s| - 1], s[|s| - 1];
      InsertKeepsTies(leq, front, x, y);
      assert (front + [x])[..|front|] == front;
      var r := Insert(leq, front, x);
      assert (r + [last])[..|r|] == r;
      // `last` and `x` are not tied, so at most one of them is tied with `y`.
      assert !(leq(last, y) && leq(y, last) && leq(x, y) && leq(y, x));
    }
  }

  lemma {:induction false} SortIsStable<T(!new)>(leq: (T, T) -> bool, s: seq<T>, y: T)
    requires TotalPreorder(leq)
    ensures Ties(leq, Sort(leq, s), y) == Ties(leq, s, y)
  {
    if s != [] {
      var front, last := s[..|s| - 1], s[|s| - 1];
      SortIsStable(leq, front, y);
      var sorted := Sort(leq, front);
      InsertKeepsTies(leq, sorted, last, y);
      assert (sorted + [last])[..|sorted|] == sorted;
    }
  }

  // ---- ... and nothing else is ----

  lemma {:induction false} TiesAreMembers<T>(leq: (T, T) -> bool, s: seq<T>, y: T)
    ensures forall z :: z in Ties(leq, s, y) ==> z in s && leq(z, y) && leq(y, z)
    ensures forall z :: z in s && leq(z, y) && leq(y, z) ==> z in Ties(leq, s, y)
  {
    if s != [] {
      TiesAreMembers(leq, s[..|s| - 1], y);
      assert s == s[..|s| - 1] + [s[|s| - 1]];
    }
  }

  lemma {:induction false} LastTied<T(!new)>(leq: (T, T) -> bool, a: seq<T>, b: seq<T>)
    requires TotalPreorder(leq) && Sorted(leq, a) && Sorted(leq, b)
    requires a != []
    requires forall y :: Ties(leq, a, y) == Ties(leq, b, y)
    ensures b != [] && leq(a[|a| - 1], b[|b| - 1])
  {
    var x := a[|a| - 1];
    TiesAreMembers(leq, a, x);
    assert leq(x, x);
    assert Ties(leq, a, x) == Ties(leq, b, x);
    TiesAreMembers(leq, b, x);
    assert x in b;
    var k :| 0 <= k < |b| && b[k] == x;
    assert k < |b| - 1 ==> leq(b[k], b[|b| - 1]);
  }

  /** Order plus stability determine the whole sequence. */
  lemma {:induction false} StableSortIsUnique<T(!new)>(leq: (T, T) -> bool, a: seq<T>, b: seq<T>)
    requires TotalPreorder(leq) && Sorted(leq, a) && Sorted(leq, b)
    requires forall y :: Ties(leq, a, y) == Ties(leq, b, y)
    ensures a == b
    decreases |a|
  {
    if a == [] {
      if b != [] {
        LastTied(leq, b, a);
      }
    } else {
      LastTied(leq, a, b);
      LastTied(leq, b, a);
      var x, z := a[|a| - 1], b[|b| - 1];
      var a', b' := a[..|a| - 1], b[..|b| - 1];
      assert Ties(leq, a, x) == Ties(leq, a', x) + [x];
      assert Ties(leq, b, x) == Ties(leq, b', x) + [z];
      assert Ties(leq, a, x) == Ties(leq, b, x);
      assert x == (Ties(leq, a', x) + [x])[|Ties(leq, a, x)| - 1] == z;
      forall y ensures Ties(leq, a', y) == Ties(leq, b', y) {
        assert Ties(leq, a, y) == Ties(leq, b, y);
        if leq(x, y) && leq(y, x) {
          assert (Ties(leq, a', y) + [x])[..|Ties(leq, a', y)|] == Ties(leq, a', y);
          assert (Ties(leq, b', y) + [x])[..|Ties(leq, b', y)|] == Ties(leq, b', y);
        } else {
          assert Ties(leq, a, y) == Ties(leq, a', y);
          assert Ties(leq, b, y) == Ties(leq, b', y);
        }
      }
      StableSortIsUnique(leq, a', b');
      assert a == a' + [x] && b == b' + [z];
    }
  }

  /** With no ties between different elements, the input order is forgotten. */
  lemma {:induction false} SortForgetsOrder<T(!new)>(leq: (T, T) -> bool, a: seq<T>, b: seq<T>)
    requires TotalPreorder(leq) && Antisymmetric(leq)
    requires multiset(a) == multiset(b)
    ensures Sort(leq, a) == Sort(leq, b)
  {
    SortIsSortedPermutation(leq, a);
    SortIsSortedPermutation(leq, b);
    SortedPermutationsAgree(leq, Sort(leq, a), Sort(leq, b));
  }

  lemma {:induction false} DropLast<T>(a: seq<T>, b: seq<T>, x: T)
    requires multiset(a + [x]) == multiset(b + [x])
    ensures multiset(a) == multiset(b)
  {
    assert multiset(a) == multiset(a + [x]) - multiset{x};
    assert multiset(b) == multiset(b + [x]) - multiset{x};
  }

  lemma {:induction false} LastIsGreatest<T(!new)>(leq: (T, T) -> bool, s: seq<T>, x: T)
    requires TotalPreorder(leq) && Sorted(leq, s) && x in multiset(s)
    ensures leq(x, s[|s| - 1])
  {
    var k :| 0 <= k < |s| && s[k] == x;
    if k == |s| - 1 {
      assert leq(x, x) || leq(x, x);
    }
  }

  lemma {:induction false} SameLast<T(!new)>(leq: (T, T) -> bool, a: seq<T>, b: seq<T>)
    requires TotalPreorder(leq) && Antisymmetric(leq)
    requires Sorted(leq, a) && Sorted(leq, b) && a != [] && b != [] && multiset(a) == multiset(b)
    ensures a[|a| - 1] == b[|b| - 1]
  {
    var x, z := a[|a| - 1], b[|b| - 1];
    assert x in multiset(a) && z in multiset(b);
    LastIsGreatest(leq, b, x);
    LastIsGreatest(leq, a, z);
  }

  lemma {:induction false} SameFronts<T(!new)>(leq: (T, T) -> bool, a: seq<T>, b: seq<T>)
    requires Sorted(leq, a) && Sorted(leq, b) && a != [] && b != []
    requires a[|a| - 1] == b[|b| - 1] && multiset(a) == multiset(b)
    ensures
      var a', b' := a[..|a| - 1], b[..|b| - 1];
      Sorted(leq, a') && Sorted(leq, b') && multiset(a') == multiset(b')
      && a == a' + [a[|a| - 1]] && b == b' + [a[|a| - 1]]
  {
    var a', b', x := a[..|a| - 1], b[..|b| - 1], a[|a| - 1];
    assert a == a' + [x] && b == b' + [x];
    DropLast(a', b', x);
  }

  lemma {:induction false} SortedPermutationsAgree<T(!new)>(leq: (T, T) -> bool, a: seq<T>, b: seq<T>)
    requires TotalPreorder(leq) && Antisymmetric(leq)
    requires Sorted(leq, a) && Sorted(leq, b) && multiset(a) == multiset(b)
    ensures a == b
    decreases |a|
  {
    SameLength(a, b);
    if a != [] {
      SameLast(leq, a, b);
      SameFronts(leq, a, b);
      SortedPermutationsAgree(leq, a[..|a| - 1], b[..|b| - 1]);
    }
  }

  lemma {:induction false} SameLength<T>(a: seq<T>, b: seq<T>)
    requires multiset(a) == multiset(b)
    ensures |a| == |b|
  {
    assert |multiset(a)| == |a| && |multiset(b)| == |b|;
  }

  // ---- the in-place sort ----

  /** Sorts the array in place; ties keep their order. */
  method SortInPlace<T>(leq: (T, T) -> bool, a: array<T>)
    modifies a
    ensures a[..] == Sort(leq, old(a[..]))
  {
    ghost var s := a[..];
    for i := 0 to a.Length
      invariant a[..i] == Sort(leq, s[..i])
      invariant forall k :: i <= k < a.Length ==> a[k] == s[k]
    {
      SinkLast(leq, a, i);
      assert s[..i + 1][..i] == s[..i];
    }
    assert a[..a.Length] == a[..] && s[..a.Length] == s;
  }

  /** Moves `a[i]` left past every element that must follow it. */
  method SinkLast<T>(leq: (T, T) -> bool, a: array<T>, i: nat)
    requires i < a.Length
    modifies a
    ensures a[..i + 1] == Insert(leq, old(a[..i]), old(a[i]))
    ensures forall k :: i < k < a.Length ==> a[k] == old(a[k])
  {
    ghost var s, x := a[..i], a[i];
    var j := i;
    assert s[..i] == s;
    while j > 0 && !leq(a[j - 1], a[j])
      invariant 0 <= j <= i
      invariant a[j] == x
      invariant forall k :: 0 <= k < j ==> a[k] == s[k]
      invariant forall k :: j < k <= i ==> a[k] == s[k - 1]
      invariant forall k :: i < k < a.Length ==> a[k] == old(a[k])
      invariant Insert(leq, s, x) == Insert(leq, s[..j], x) + s[j..]
    {
      InsertPeel(leq, s, x, j);
      a[j - 1], a[j] := a[j], a[j - 1];
      j := j - 1;
    }
    assert Insert(leq, s[..j], x) == s[..j] + [x];
    ghost var r := s[..j] + [x] + s[j..];
    assert forall k :: 0 <= k <= i ==> a[k] == r[k];
    assert a[..i + 1] == r;
  }

  lemma {:induction false} InsertPeel<T>(leq: (T, T) -> bool, s: seq<T>, x: T, j: nat)
    requires 0 < j <= |s| && !leq(s[j - 1], x)
    ensures Insert(leq, s[..j], x) + s[j..] == Insert(leq, s[..j - 1], x) + s[j - 1..]
  {
    assert s[..j][..j - 1] == s[..j - 1];
    assert [s[j - 1]] + s[j..] == s[j - 1..];
  }

  // ---- Go's string order ----

  /** Lexicographic order on the code units. */
  predicate StringLeq(a: string, b: string) {
    a == [] || (b != [] && (a[0] < b[0] || (a[0] == b[0] && StringLeq(a[1..], b[1..]))))
  }

  lemma {:induction false} UndercutsBehindFirst(a: string, b: string, k: nat)
    requires a != [] && b != [] && a[0] == b[0]
    ensures Undercuts(a[1..], b[1..], k) <==> Undercuts(a, b, k + 1)
  {
    if k < |a| - 1 && k < |b| - 1 {
      assert a[..k + 1] == [a[0]] + a[1..][..k] && b[..k + 1] == [b[0]] + b[1..][..k];
      assert a[1..][..k] == a[..k + 1][1..] && b[1..][..k] == b[..k + 1][1..];
    }
  }

  /** The first code unit that differs decides; a prefix comes first. */
  lemma {:induction false} FirstDifferenceDecides(a: string, b: string)
    ensures StringLeq(a, b) <==> a <= b || exists k: nat :: Undercuts(a, b, k)
  {
    if a != [] && b != [] {
      if a[0] == b[0] {
        FirstDifferenceDecides(a[1..], b[1..]);
        assert a == [a[0]] + a[1..] && b == [b[0]] + b[1..];
        if k: nat :| Undercuts(a[1..], b[1..], k) {
          UndercutsBehindFirst(a, b, k);
        }
        if k: nat :| Undercuts(a, b, k) {
          UndercutsBehindFirst(a, b, k - 1);
        }
      } else {
        assert a[0] < b[0] ==> Undercuts(a, b, 0);
        if k: nat :| Undercuts(a, b, k) {
          assert k > 0 ==> a[..k][0] == b[..k][0];
        }
      }
    }
  }

  predicate Undercuts(a: string, b: string, k: nat) {
    k < |a| && k < |b| && a[..k] == b[..k] && a[k] < b[k]
  }

  lemma {:induction false} StringLeqAntisymmetric(a: string, b: string)
    requires StringLeq(a, b) && StringLeq(b, a)
    ensures a == b
  {
    if a != [] {
      StringLeqAntisymmetric(a[1..], b[1..]);
      assert a == [a[0]] + a[1..] && b == [b[0]] + b[1..];
    }
  }

  lemma {:induction false} StringLeqTotal(a: string, b: string)
    ensures StringLeq(a, b) || StringLeq(b, a)
  {
    if a != [] && b != [] && a[0] == b[0] {
      StringLeqTotal(a[1..], b[1..]);
    }
  }

  lemma {:induction false} StringLeqTransitive(a: string, b: string, c: string)
    requires StringLeq(a, b) && StringLeq(b, c)
    ensures StringLeq(a, c)
  {
    if a != [] && a[0] == b[0] && b[0] == c[0] {
      StringLeqTransitive(a[1..], b[1..], c[1..]);
    }
  }

  function StringOrder(): (string, string) -> bool {
    (a, b) => StringLeq(a, b)
  }

  lemma {:induction false} StringOrderIsTotal()
    ensures TotalPreorder(StringOrder()) && Antisymmetric(StringOrder())
  {
    forall a: string, b: string ensures StringLeq(a, b) || StringLeq(b, a) {
      StringLeqTotal(a, b);
    }
    forall a: string, b: string | StringLeq(a, b) && StringLeq(b, a) ensures a == b {
      StringLeqAntisymmetric(a, b);
    }
    forall a: string, b: string, c: string | StringLeq(a, b) && StringLeq(b, c) ensures StringLeq(a, c) {
      StringLeqTransitive(a, b, c);
    }
  }
}
