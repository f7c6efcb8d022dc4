/** Finite sums of reals, indexed by the elements of a sequence. */
module Sums {
  import opened Sorting

  function SumOver<K>(keys: seq<K>, f: K -> real): real {
    if keys == [] then 0.0 else f(keys[0]) + SumOver(keys[1..], f)
  }

  function Abs(x: real): real {
    if x < 0.0 then -x else x
  }

  lemma {:induction false} SumAppend<K>(a: seq<K>, b: seq<K>, f: K -> real)
    ensures SumOver(a + b, f) == SumOver(a, f) + SumOver(b, f)
  {
    if a == [] {
      assert a + b == b;
    } else {
      assert (a + b)[1..] == a[1..] + b;
      SumAppend(a[1..], b, f);
    }
  }

  lemma {:induction false} SumEqual<K>(keys: seq<K>, f: K -> real, g: K -> real)
    requires forall i :: 0 <= i < |keys| ==> f(keys[i]) == g(keys[i])
    ensures SumOver(keys, f) == SumOver(keys, g)
  {
    if keys != [] { SumEqual(keys[1..], f, g); }
  }

  lemma {:induction false} SumPlus<K>(keys: seq<K>, f: K -> real, g: K -> real, h: K -> real)
    requires forall i :: 0 <= i < |keys| ==> h(keys[i]) == f(keys[i]) + g(keys[i])
    ensures SumOver(keys, h) == SumOver(keys, f) + SumOver(keys, g)
  {
    if keys != [] { SumPlus(keys[1..], f, g, h); }
  }

  lemma {:induction false} SumMinus<K>(keys: seq<K>, f: K -> real, g: K -> real, h: K -> real)
    requires forall i :: 0 <= i < |keys| ==> h(keys[i]) == f(keys[i]) - g(keys[i])
    ensures SumOver(keys, h) == SumOver(keys, f) - SumOver(keys, g)
  {
    if keys != [] { SumMinus(keys[1..], f, g, h); }
  }

  /** Two lists with the same summands. */
  lemma {:induction false} SumPairs<K, L>(keys: seq<K>, others: seq<L>, f: K -> real, g: L -> real)
    requires |keys| == |others| && forall i :: 0 <= i < |keys| ==> f(keys[i]) == g(others[i])
    ensures SumOver(keys, f) == SumOver(others, g)
  {
    if keys != [] { SumPairs(keys[1..], others[1..], f, g); }
  }

  lemma {:induction false} SumZero<K>(keys: seq<K>, f: K -> real)
    requires forall i :: 0 <= i < |keys| ==> f(keys[i]) == 0.0
    ensures SumOver(keys, f) == 0.0
  {
    if keys != [] { SumZero(keys[1..], f); }
  }

  /** Changing the summand at one of several distinct keys. */
  lemma {:induction false} SumChange<K>(keys: seq<K>, f: K -> real, g: K -> real, k: K)
    requires Distinct(keys) && k in keys
    requires forall i :: 0 <= i < |keys| && keys[i] != k ==> f(keys[i]) == g(keys[i])
    ensures SumOver(keys, g) == SumOver(keys, f) + g(k) - f(k)
  {
    if keys[0] == k {
      SumEqual(keys[1..], f, g);
    } else {
      SumChange(keys[1..], f, g, k);
    }
  }

  /** Sums that differ by at most e(k) at every key. */
  lemma {:induction false} SumDistance<K>(keys: seq<K>, f: K -> real, g: K -> real, e: K -> real)
    requires forall i :: 0 <= i < |keys| ==> Abs(f(keys[i]) - g(keys[i])) <= e(keys[i])
    ensures Abs(SumOver(keys, f) - SumOver(keys, g)) <= SumOver(keys, e)
  {
    if keys != [] {
      SumDistance(keys[1..], f, g, e);
      assert Abs(f(keys[0]) - g(keys[0])) <= e(keys[0]);
    }
  }

  /** A sum over a selection of keys: everything else counts nothing. */
  lemma {:induction false} SumSingle<K>(keys: seq<K>, f: K -> real, k: K)
    requires Distinct(keys) && k in keys
    requires forall i :: 0 <= i < |keys| && keys[i] != k ==> f(keys[i]) == 0.0
    ensures SumOver(keys, f) == f(k)
  {
    if keys[0] == k {
      SumZero(keys[1..], f);
    } else {
      SumSingle(keys[1..], f, k);
    }
  }

  lemma {:induction false} SumPermutation<K>(a: seq<K>, b: seq<K>, f: K -> real)
    requires multiset(a) == multiset(b)
    ensures SumOver(a, f) == SumOver(b, f)
  {
    assert |a| == |multiset(a)| == |multiset(b)| == |b|;
    if a != [] {
      assert a == [a[0]] + a[1..];
      assert a[0] in multiset(b);
      var i :| 0 <= i < |b| && b[i] == a[0];
      var rest := b[..i] + b[i + 1..];
      assert b == b[..i] + [b[i]] + b[i + 1..];
      assert multiset(b) == multiset(b[..i]) + multiset{b[i]} + multiset(b[i + 1..]);
      assert multiset(a[1..]) == multiset(a) - multiset{a[0]};
      SumPermutation(a[1..], rest, f);
      SumAppend(b[..i], b[i + 1..], f);
      SumAppend(b[..i] + [b[i]], b[i + 1..], f);
      SumAppend(b[..i], [b[i]], f);
    }
  }

  // ----- Amounts held in maps; a missing key counts nothing.

  function Exact<K>(m: map<K, real>): K -> real {
    k => if k in m then m[k] else 0.0
  }

  function Units<K>(m: map<K, int>): K -> real {
    k => if k in m then m[k] as real else 0.0
  }

  /** `keys` lists every key of `m` once, and perhaps others. */
  ghost predicate Covers<K, V>(keys: seq<K>, m: map<K, V>) {
    Distinct(keys) && forall k :: k in m ==> k in keys
  }

  lemma SizeWithout<K, V>(m: map<K, V>, k: K)
    ensures |m| == |m - {k}| + if k in m then 1 else 0
  {
    if k in m {
      assert m.Keys == (m - {k}).Keys + {k};
    } else {
      assert m.Keys == (m - {k}).Keys;
    }
  }

  lemma {:induction false} CoversCount<K, V>(keys: seq<K>, m: map<K, V>)
    requires Covers(keys, m)
    ensures |m| <= |keys|
    decreases |keys|
  {
    if keys == [] {
      assert m == map[];
    } else {
      var rest := m - {keys[0]};
      forall j | j in rest ensures j in keys[1..] { assert j in keys && j != keys[0]; }
      CoversCount(keys[1..], rest);
      SizeWithout(m, keys[0]);
    }
  }

  /** One half at every key of `m` and nothing elsewhere adds up to half their number. */
  lemma {:induction false} SumOfHalves<K, V>(keys: seq<K>, m: map<K, V>)
    requires Covers(keys, m)
    ensures SumOver(keys, k => if k in m then 0.5 else 0.0) == |m| as real * 0.5
    decreases |keys|
  {
    if keys == [] {
      assert m == map[];
    } else {
      var k := keys[0];
      var rest := m - {k};
      forall j | j in rest ensures j in keys[1..] { assert j in keys && j != k; }
      SumOfHalves(keys[1..], rest);
      SumEqual(keys[1..], j => if j in m then 0.5 else 0.0, j => if j in rest then 0.5 else 0.0);
      SizeWithout(m, k);
    }
  }

  lemma SumOneMore<K>(keys: seq<K>, k: K, f: K -> real)
    ensures SumOver(keys + [k], f) == SumOver(keys, f) + f(k)
  {
    SumAppend(keys, [k], f);
    assert SumOver([k], f) == f(k);
  }

  lemma SumOfTwoOrThree<K>(keys: seq<K>, f: K -> real)
    requires 2 <= |keys| <= 3
    ensures SumOver(keys, f) == f(keys[0]) + f(keys[1]) + if |keys| == 3 then f(keys[2]) else 0.0
  {
    hide SumOver;
    assert keys[..2] == ([] + [keys[0]]) + [keys[1]];
    SumZero([], f);
    SumOneMore([], keys[0], f);
    SumOneMore([] + [keys[0]], keys[1], f);
    if |keys| == 3 {
      assert keys == keys[..2] + [keys[2]];
      SumOneMore(keys[..2], keys[2], f);
    } else {
      assert keys == keys[..2];
    }
  }

  lemma SumLast<K>(keys: seq<K>, i: nat, f: K -> real)
    requires i < |keys|
    ensures SumOver(keys[..i + 1], f) == SumOver(keys[..i], f) + f(keys[i])
  {
    assert keys[..i + 1] == keys[..i] + [keys[i]];
    SumAppend(keys[..i], [keys[i]], f);
    assert SumOver([keys[i]], f) == f(keys[i]);
  }

  function AddTo<K>(m: map<K, real>, k: K, amount: real): map<K, real> {
    m[k := (if k in m then m[k] else 0.0) + amount]
  }

  /** The sum of the amounts of a map, in no particular order. */
  ghost function ExactSum<K(!new)>(m: map<K, real>): real {
    if m == map[] then 0.0 else var k :| k in m; m[k] + ExactSum(m - {k})
  }

  /** Any list that covers a map adds up to it. */
  lemma {:induction false} ExactSumOver<K(!new)>(keys: seq<K>, m: map<K, real>)
    requires Covers(keys, m)
    ensures SumOver(keys, Exact(m)) == ExactSum(m)
    decreases |m|
  {
    if m == map[] {
      SumZero(keys, Exact(m));
    } else {
      var k :| k in m && ExactSum(m) == m[k] + ExactSum(m - {k});
      ExactSumOver(keys, m - {k});
      SumChange(keys, Exact(m - {k}), Exact(m), k);
    }
  }
}
