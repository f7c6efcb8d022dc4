/** The bounded analysis memo: a generation-stamped LRU cache shared by concurrent computations
    and invalidations. */
module AnalysisMemo {
  import opened AnalysisModel

  const CAPACITY := 2

  datatype Entry<R> = Entry(key: string, generation: nat, result: R, forced: bool)

  // ----- What the operations do to the list of entries, most recently used first

  predicate Matches<R>(e: Entry<R>, key: string, generation: nat, includeForced: bool) {
    e.key == key && e.generation == generation && (includeForced || !e.forced)
  }

  function Without<R>(memo: seq<Entry<R>>, key: string): seq<Entry<R>> {
    if memo == [] then []
    else if memo[0].key == key then memo[1..]
    else [memo[0]] + Without(memo[1..], key)
  }

  function Insert<R>(memo: seq<Entry<R>>, e: Entry<R>): seq<Entry<R>> {
    [e] + Without(memo, e.key)
  }

  /** The first of `entries` ends up in front. */
  function InsertAll<R>(memo: seq<Entry<R>>, entries: seq<Entry<R>>): seq<Entry<R>> {
    if entries == [] then memo else Insert(InsertAll(memo, entries[1..]), entries[0])
  }

  function Truncate<T>(items: seq<T>): seq<T> {
    if |items| > CAPACITY then items[..CAPACITY] else items
  }

  function Publish<R>(memo: seq<Entry<R>>, entries: seq<Entry<R>>): seq<Entry<R>> {
    Truncate(InsertAll(memo, entries))
  }

  /** The entry a lookup finds, if any. */
  function Found<R>(memo: seq<Entry<R>>, key: string, generation: nat, includeForced: bool): Option<Entry<R>> {
    if memo == [] then None
    else if Matches(memo[0], key, generation, includeForced) then Some(memo[0])
    else Found(memo[1..], key, generation, includeForced)
  }

  ghost predicate DistinctKeys<R(!new)>(memo: seq<Entry<R>>) {
    forall i, j :: 0 <= i < j < |memo| ==> memo[i].key != memo[j].key
  }

  /** Keys are distinct and every entry belongs to the generation. */
  ghost predicate IsMemo<R(!new)>(memo: seq<Entry<R>>, generation: nat) {
    DistinctKeys(memo) && forall e :: e in memo ==> e.generation == generation
  }

  /** Drops the entry with a key, if there is one. */
  method Drop<R(!new)>(memo: seq<Entry<R>>, key: string) returns (rest: seq<Entry<R>>)
    ensures rest == Without(memo, key)
  {
    for i := 0 to |memo|
      invariant forall j :: 0 <= j < i ==> memo[j].key != key
    {
      if memo[i].key == key {
        WithoutAt(memo, i);
        return memo[..i] + memo[i + 1..];
      }
    }
    WithoutMissing(memo, key);
    rest := memo;
  }

  /** The memo as the service holds it. */
  class AnalysisMemo<R(!new)> {
    var memo: seq<Entry<R>>
    var generation: nat

    ghost predicate Valid()
      reads this
    {
      IsMemo(memo, generation) && |memo| <= CAPACITY
    }

    constructor ()
      ensures Valid() && memo == [] && generation == 0
    {
      memo, generation := [], 0;
    }

    /** A hit moves the entry to the front; a miss changes nothing. */
    method MemoResult(key: string, includeForced: bool) returns (hit: Option<Entry<R>>)
      requires Valid()
      modifies this`memo
      ensures Valid()
      ensures hit == Found(old(memo), key, generation, includeForced)
      ensures memo == if hit.Some? then Insert(old(memo), hit.value) else old(memo)
    {
      hide IsMemo;
      hit := None;
      for i := 0 to |memo|
        invariant memo == old(memo)
        invariant Found(memo, key, generation, includeForced) == Found(memo[i..], key, generation, includeForced)
      {
        var e := memo[i];
        if e.key != key || e.generation != generation || (!includeForced && e.forced) {
          continue;
        }
        MoveToFront(memo, generation, i);
        memo := [e] + memo[..i] + memo[i + 1..];
        return Some(e);
      }
    }

    method MemoGeneration() returns (g: nat)
      ensures g == generation
    {
      g := generation;
    }

    /** A computation that began in an older generation publishes nothing. */
    method Memoize(g: nat, entries: seq<Entry<R>>)
      requires Valid() && forall e :: e in entries ==> e.generation == g
      modifies this`memo
      ensures Valid()
      ensures memo == if g == generation then Publish(old(memo), entries) else old(memo)
    {
      hide IsMemo, Without;
      if g != generation {
        return;
      }
      ghost var before := memo;
      var i := |entries|;
      while i > 0
        invariant 0 <= i <= |entries|
        invariant memo == InsertAll(before, entries[i..])
        invariant IsMemo(memo, generation)
      {
        i := i - 1;
        assert entries[i..][0] == entries[i] && entries[i..][1..] == entries[i + 1..];
        InsertKeeps(memo, generation, entries[i]);
        var rest := Drop(memo, entries[i].key);
        memo := [entries[i]] + rest;
      }
      if |memo| > CAPACITY {
        PrefixKeeps(memo, generation, CAPACITY);
        memo := memo[..CAPACITY];
      }
    }

    method Invalidate()
      modifies this
      ensures Valid() && memo == [] && generation == old(generation) + 1
    {
      generation := generation + 1;
      memo := [];
    }
  }

  lemma {:induction false} WithoutAt<R(!new)>(memo: seq<Entry<R>>, i: nat)
    requires i < |memo| && forall j :: 0 <= j < i ==> memo[j].key != memo[i].key
    ensures Without(memo, memo[i].key) == memo[..i] + memo[i + 1..]
  {
    if i > 0 {
      WithoutAt(memo[1..], i - 1);
      assert memo[..i] == [memo[0]] + memo[1..][..i - 1];
    }
  }

  lemma {:induction false} WithoutMissing<R(!new)>(memo: seq<Entry<R>>, key: string)
    requires forall j :: 0 <= j < |memo| ==> memo[j].key != key
    ensures Without(memo, key) == memo
  {
    if memo != [] { WithoutMissing(memo[1..], key); }
  }

  lemma DistinctCons<R(!new)>(e: Entry<R>, rest: seq<Entry<R>>)
    requires DistinctKeys(rest) && forall x :: x in rest ==> x.key != e.key
    ensures DistinctKeys([e] + rest)
  {
  }

  lemma {:induction false} WithoutIsPart<R(!new)>(memo: seq<Entry<R>>, key: string)
    requires DistinctKeys(memo)
    ensures DistinctKeys(Without(memo, key))
    ensures forall e :: e in Without(memo, key) <==> e in memo && e.key != key
    ensures |Without(memo, key)| == |memo| - if exists e :: e in memo && e.key == key then 1 else 0
  {
    if memo == [] {
    } else if memo[0].key == key {
      assert memo[0] in memo;
      assert forall e :: e in memo[1..] ==> e in memo;
    } else {
      WithoutIsPart(memo[1..], key);
      DistinctCons(memo[0], Without(memo[1..], key));
      assert forall e :: e in memo <==> e == memo[0] || e in memo[1..];
    }
  }

  /** Inserting keeps a memo, which then holds the new entry and all entries of other keys. */
  lemma InsertKeeps<R(!new)>(memo: seq<Entry<R>>, generation: nat, e: Entry<R>)
    requires IsMemo(memo, generation) && e.generation == generation
    ensures IsMemo(Insert(memo, e), generation)
    ensures forall x :: x in Insert(memo, e) <==> x == e || (x in memo && x.key != e.key)
    ensures e in memo ==> |Insert(memo, e)| == |memo|
  {
    WithoutIsPart(memo, e.key);
    DistinctCons(e, Without(memo, e.key));
  }

  /** Moving an entry to the front in place is inserting it again. */
  lemma MoveToFront<R(!new)>(memo: seq<Entry<R>>, generation: nat, i: nat)
    requires IsMemo(memo, generation) && i < |memo|
    ensures [memo[i]] + memo[..i] + memo[i + 1..] == Insert(memo, memo[i])
    ensures IsMemo(Insert(memo, memo[i]), generation) && |Insert(memo, memo[i])| == |memo|
  {
    WithoutAt(memo, i);
    InsertKeeps(memo, generation, memo[i]);
  }

  lemma PrefixKeeps<R(!new)>(memo: seq<Entry<R>>, generation: nat, n: nat)
    requires IsMemo(memo, generation) && n <= |memo|
    ensures IsMemo(memo[..n], generation) && forall e :: e in memo[..n] ==> e in memo
  {
  }
}
