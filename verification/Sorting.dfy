/** Sorting by a total order: the specification of the library sorts the program calls.

    A sort by a total order has exactly one possible result, so the library routine is
    fixed by `IsSortOf` alone: `SortIsCorrect` shows that `Sort` meets it and
    `SortIsUnique` that nothing else does.
  */
module Sorting {

  ghost predicate TotalOrder<T(!new)>(leq: (T, T) -> bool) {
    && (forall a, b :: leq(a, b) || leq(b, a))
    && (forall a, b :: leq(a, b) && leq(b, a) ==> a == b)
    && (forall a, b, c :: leq(a, b) && leq(b, c) ==> leq(a, c))
  }

  ghost predicate Sorted<T>(s: seq<T>, leq: (T, T) -> bool) {
    forall i, j :: 0 <= i < j < |s| ==> leq(s[i], s[j])
  }

  ghost predicate IsSortOf<T>(r: seq<T>, s: seq<T>, leq: (T, T) -> bool) {
    Sorted(r, leq) && multiset(r) == multiset(s)
  }

  function Insert<T>(x: T, s: seq<T>, leq: (T, T) -> bool): seq<T> {
    if s == [] then [x]
    else if leq(x, s[0]) then [x] + s
    else [s[0]] + Insert(x, s[1..], leq)
  }

  function Sort<T>(s: seq<T>, leq: (T, T) -> bool): seq<T> {
    if s == [] then [] else Insert(s[0], Sort(s[1..], leq), leq)
  }

  lemma {:induction false} InsertKeepsElements<T(!new)>(x: T, s: seq<T>, leq: (T, T) -> bool)
    ensures multiset(Insert(x, s, leq)) == multiset(s) + multiset{x}
  {
    if s != [] && !leq(x, s[0]) {
      InsertKeepsElements(x, s[1..], leq);
      assert s == [s[0]] + s[1..];
    }
  }

  lemma {:induction false} InsertKeepsSorted<T(!new)>(x: T, s: seq<T>, leq: (T, T) -> bool)
    requires TotalOrder(leq) && Sorted(s, leq)
    ensures Sorted(Insert(x, s, leq), leq)
  {
    if s == [] {
    } else if leq(x, s[0]) {
      forall j | 0 <= j < |s| ensures leq(x, s[j]) { assert leq(s[0], s[j]); }
    } else {
      var tail := Insert(x, s[1..], leq);
      InsertKeepsSorted(x, s[1..], leq);
      InsertKeepsElements(x, s[1..], leq);
      forall i | 0 <= i < |tail| ensures leq(s[0], tail[i]) {
        assert tail[i] in multiset(tail);
        assert tail[i] == x || tail[i] in s[1..];
      }
    }
  }

  lemma {:induction false} SortIsCorrect<T(!new)>(s: seq<T>, leq: (T, T) -> bool)
    requires TotalOrder(leq)
    ensures IsSortOf(Sort(s, leq), s, leq)
  {
    if s != [] {
      SortIsCorrect(s[1..], leq);
      InsertKeepsSorted(s[0], Sort(s[1..], leq), leq);
      InsertKeepsElements(s[0], Sort(s[1..], leq), leq);
      assert s == [s[0]] + s[1..];
    }
  }

  /** Two sorted arrangements of the same elements are the same sequence. */
  lemma {:induction false} SortIsUnique<T(!new)>(a: seq<T>, b: seq<T>, leq: (T, T) -> bool)
    requires TotalOrder(leq)
    requires Sorted(a, leq) && Sorted(b, leq) && multiset(a) == multiset(b)
    ensures a == b
  {
    assert |a| == |multiset(a)| == |multiset(b)| == |b|;
    if a != [] {
      FirstIsLeast(a, b, leq);
      FirstIsLeast(b, a, leq);
      assert leq(a[0], b[0]) && leq(b[0], a[0]);
      assert a == [a[0]] + a[1..] && b == [b[0]] + b[1..];
      assert multiset(a[1..]) == multiset(a) - multiset{a[0]};
      assert multiset(b[1..]) == multiset(b) - multiset{b[0]};
      SortIsUnique(a[1..], b[1..], leq);
    }
  }

  lemma FirstIsLeast<T(!new)>(a: seq<T>, b: seq<T>, leq: (T, T) -> bool)
    requires TotalOrder(leq) && Sorted(a, leq) && multiset(a) == multiset(b) && a != [] && b != []
    ensures leq(a[0], b[0])
  {
    assert b[0] in multiset(a);
    var i :| 0 <= i < |a| && a[i] == b[0];
  }

  lemma SortOfPermutation<T(!new)>(a: seq<T>, b: seq<T>, leq: (T, T) -> bool)
    requires TotalOrder(leq) && multiset(a) == multiset(b)
    ensures Sort(a, leq) == Sort(b, leq)
  {
    SortIsCorrect(a, leq);
    SortIsCorrect(b, leq);
    SortIsUnique(Sort(a, leq), Sort(b, leq), leq);
  }

  /** The order of strings by code unit, as `<` compares them. */
  predicate StringLeq(a: string, b: string) {
    LeqFrom(a, b, 0)
  }

  /** Compares the rest of two strings that agree before `i`. */
  predicate LeqFrom(a: string, b: string, i: nat)
    requires i <= |a| && i <= |b|
    decreases |a| - i
  {
    i == |a| || (i < |b| && (a[i] < b[i] || (a[i] == b[i] && LeqFrom(a, b, i + 1))))
  }

  lemma {:induction false} LeqFromTotal(a: string, b: string, i: nat)
    requires i <= |a| && i <= |b|
    ensures LeqFrom(a, b, i) || LeqFrom(b, a, i)
    decreases |a| - i
  {
    if i < |a| && i < |b| && a[i] == b[i] { LeqFromTotal(a, b, i + 1); }
  }

  lemma {:induction false} LeqFromAntisymmetric(a: string, b: string, i: nat)
    requires i <= |a| && i <= |b| && a[..i] == b[..i]
    requires LeqFrom(a, b, i) && LeqFrom(b, a, i)
    ensures a == b
    decreases |a| - i
  {
    if i < |a| {
      assert a[..i + 1] == a[..i] + [a[i]] && b[..i + 1] == b[..i] + [b[i]];
      LeqFromAntisymmetric(a, b, i + 1);
    } else {
      assert a == a[..i] && b == b[..i];
    }
  }

  lemma {:induction false} LeqFromTransitive(a: string, b: string, c: string, i: nat)
    requires i <= |a| && i <= |b| && i <= |c|
    requires LeqFrom(a, b, i) && LeqFrom(b, c, i)
    ensures LeqFrom(a, c, i)
    decreases |a| - i
  {
    if i < |a| && a[i] == b[i] && b[i] == c[i] { LeqFromTransitive(a, b, c, i + 1); }
  }

  lemma StringOrder()
    ensures TotalOrder(StringLeq)
  {
    forall a: string, b: string ensures StringLeq(a, b) || StringLeq(b, a) { LeqFromTotal(a, b, 0); }
    forall a: string, b: string | StringLeq(a, b) && StringLeq(b, a) ensures a == b { LeqFromAntisymmetric(a, b, 0); }
    forall a: string, b: string, c: string | StringLeq(a, b) && StringLeq(b, c) ensures StringLeq(a, c) {
      LeqFromTransitive(a, b, c, 0);
    }
  }

  ghost predicate Distinct<T>(s: seq<T>) {
    forall i, j :: 0 <= i < j < |s| ==> s[i] != s[j]
  }

  /** The elements of a set of strings in order, each once. */
  ghost predicate IsSortedListOf(keys: seq<string>, elements: set<string>) {
    Sorted(keys, StringLeq) && Distinct(keys) && forall k :: k in keys <==> k in elements
  }

  /** Collects the keys of a map in any order and sorts them. */
  method SortedList(elements: set<string>) returns (keys: seq<string>)
    ensures IsSortedListOf(keys, elements)
  {
    keys := [];
    var rest := elements;
    while rest != {}
      invariant rest <= elements
      invariant forall k :: k in keys <==> k in elements - rest
      invariant Distinct(keys)
    {
      var k :| k in rest;
      assert k !in keys;
      keys := keys + [k];
      rest := rest - {k};
    }
    StringOrder();
    SortIsCorrect(keys, StringLeq);
    DistinctPermutation(keys, Sort(keys, StringLeq));
    keys := Sort(keys, StringLeq);
  }

  lemma DistinctPermutation<K(!new)>(a: seq<K>, b: seq<K>)
    requires Distinct(a) && multiset(a) == multiset(b)
    ensures Distinct(b) && forall k :: k in a <==> k in b
  {
    forall k ensures k in a <==> k in b {
      assert k in multiset(a) <==> k in multiset(b);
    }
    forall i, j | 0 <= i < j < |b| ensures b[i] != b[j] {
      DistinctCounts(a, b[i]);
      RepeatCounts(b, i, j);
    }
  }

  lemma RepeatCounts<K(!new)>(b: seq<K>, i: nat, j: nat)
    requires i < j < |b|
    ensures b[i] == b[j] ==> multiset(b)[b[i]] >= 2
  {
    assert b == b[..j] + [b[j]] + b[j + 1..];
    assert b[i] == b[..j][i];
    assert b[i] in multiset(b[..j]);
  }

  lemma {:induction false} DistinctCounts<K(!new)>(a: seq<K>, k: K)
    requires Distinct(a)
    ensures multiset(a)[k] <= 1
  {
    if a != [] {
      assert a == [a[0]] + a[1..];
      DistinctCounts(a[1..], k);
    }
  }

  lemma SortedListIsUnique(a: seq<string>, b: seq<string>, elements: set<string>)
    requires IsSortedListOf(a, elements) && IsSortedListOf(b, elements)
    ensures a == b
  {
    StringOrder();
    forall k ensures multiset(a)[k] == multiset(b)[k] {
      DistinctCounts(a, k);
      DistinctCounts(b, k);
      assert k in a <==> k in multiset(a);
      assert k in b <==> k in multiset(b);
    }
    assert multiset(a) == multiset(b);
    SortIsUnique(a, b, StringLeq);
  }
}
