/** Choosing the current quote: the best of each class of observation is kept on its own, and the
    classes are compared at the end. */
module QuoteSelection {
  import opened AnalysisModel

  /** What decides between quotes. A daily close has a date and a converted metal quote a raw
      instant; 0 stands for neither. Identities are ordered as their texts are. */
  datatype Order = Order(agent: bool, quotedAt: int, createdAt: int, id: int, date: nat, rawAt: nat, revision: int)

  datatype Quote<T> = Quote(value: T, order: Order)

  const REALTIME := 0
  const DAILY := 1
  const CONVERTED := 2

  function KindOf(o: Order): (kind: nat)
    ensures kind < 3
  {
    if o.date != 0 then DAILY else if o.rawAt != 0 then CONVERTED else REALTIME
  }

  /** The comparison across classes. */
  predicate CurrentLater(a: Order, b: Order) {
    if a.quotedAt != b.quotedAt then a.quotedAt > b.quotedAt
    else if a.agent != b.agent then a.agent
    else if a.createdAt != b.createdAt then a.createdAt > b.createdAt
    else a.id > b.id
  }

  /** The comparison within a class. */
  predicate KindLater(a: Order, b: Order) {
    match KindOf(a)
    case 0 => CurrentLater(a, b)
    case 1 => if a.date != b.date then a.date > b.date else if a.agent != b.agent then a.agent else CurrentLater(a, b)
    case _ =>
      if a.rawAt != b.rawAt then a.rawAt > b.rawAt
      else if a.revision != b.revision then a.revision > b.revision
      else a.createdAt > b.createdAt || (a.createdAt == b.createdAt && a.id > b.id)
  }

  /** The best quote of each class so far. */
  function Added<T>(best: seq<Option<Quote<T>>>, q: Quote<T>): seq<Option<Quote<T>>>
    requires |best| == 3
  {
    var kind := KindOf(q.order);
    if best[kind].None? || KindLater(q.order, best[kind].value.order) then best[kind := Some(q)] else best
  }

  function AddAll<T>(quotes: seq<Quote<T>>): (best: seq<Option<Quote<T>>>)
    ensures |best| == 3
  {
    if quotes == [] then [None, None, None] else Added(AddAll(quotes[..|quotes| - 1]), quotes[|quotes| - 1])
  }

  function Best<T>(best: seq<Option<Quote<T>>>): Option<Quote<T>> {
    if best == [] then None
    else
      var before := Best(best[..|best| - 1]);
      var last := best[|best| - 1];
      if last.None? then before
      else if before.None? || CurrentLater(last.value.order, before.value.order) then last
      else before
  }

  class CurrentQuoteSelection<T(!new)> {
    var best: seq<Option<Quote<T>>>

    ghost predicate Holds(quotes: seq<Quote<T>>)
      reads this
    {
      best == AddAll(quotes)
    }

    constructor ()
      ensures Holds([])
    {
      best := [None, None, None];
    }

    method Add(q: Quote<T>, ghost quotes: seq<Quote<T>>)
      requires Holds(quotes)
      modifies this
      ensures Holds(quotes + [q])
    {
      assert (quotes + [q])[..|quotes|] == quotes;
      var order := q.order;
      var kind := if order.date != 0 then DAILY else if order.rawAt != 0 then CONVERTED else REALTIME;
      if best[kind].None? {
        best := best[kind := Some(q)];
        return;
      }
      var previous := best[kind].value.order;
      var later := false;
      if kind == DAILY && order.date != previous.date {
        later := order.date > previous.date;
      } else if kind == CONVERTED && order.rawAt != previous.rawAt {
        later := order.rawAt > previous.rawAt;
      } else if kind == CONVERTED && order.revision != previous.revision {
        later := order.revision > previous.revision;
      } else if kind == CONVERTED {
        later := order.createdAt > previous.createdAt
        || (order.createdAt == previous.createdAt && order.id > previous.id);
      } else {
        later := CurrentLater(order, previous);
        if kind == DAILY && order.agent != previous.agent {
          later := order.agent;
        }
      }
      if later {
        best := best[kind := Some(q)];
      }
    }

    method Selected(ghost quotes: seq<Quote<T>>) returns (selected: Option<Quote<T>>)
      requires Holds(quotes)
      ensures selected == Best(AddAll(quotes))
    {
      selected := None;
      assert best[..0] == [];
      for kind := 0 to 3
        invariant selected == Best(best[..kind])
      {
        assert best[..kind + 1][..kind] == best[..kind];
        if best[kind].Some? && (selected.None? || CurrentLater(best[kind].value.order, selected.value.order)) {
          selected := best[kind];
        }
      }
      assert best[..3] == best;
    }
  }

  // ----- The comparisons are strict total orders

  lemma CurrentLaterIsTotal(a: Order, b: Order, c: Order)
    ensures !(CurrentLater(a, b) && CurrentLater(b, a))
    ensures a.id != b.id ==> CurrentLater(a, b) || CurrentLater(b, a)
    ensures CurrentLater(a, b) && CurrentLater(b, c) ==> CurrentLater(a, c)
  {
  }

  lemma KindLaterIsTotal(a: Order, b: Order, c: Order)
    requires KindOf(a) == KindOf(b) == KindOf(c)
    ensures !(KindLater(a, b) && KindLater(b, a))
    ensures a.id != b.id ==> KindLater(a, b) || KindLater(b, a)
    ensures KindLater(a, b) && KindLater(b, c) ==> KindLater(a, c)
  {
  }

  // ----- What is kept and selected

  /** No two quotes share an identity. */
  ghost predicate DistinctIds<T>(quotes: seq<Quote<T>>) {
    forall i, j :: 0 <= i < j < |quotes| ==> quotes[i].order.id != quotes[j].order.id
  }

  /** The best quote of a class: later than every other one of the class. */
  ghost predicate IsKindBest<T(!new)>(quotes: seq<Quote<T>>, kind: nat, best: Option<Quote<T>>) {
    match best
    case None => forall q :: q in quotes ==> KindOf(q.order) != kind
    case Some(b) =>
      && b in quotes && KindOf(b.order) == kind
      && forall q :: q in quotes && q != b && KindOf(q.order) == kind ==> KindLater(b.order, q.order)
  }

  lemma IdsDiffer<T(!new)>(quotes: seq<Quote<T>>, a: Quote<T>, b: Quote<T>)
    requires DistinctIds(quotes) && a in quotes && b in quotes && a != b
    ensures a.order.id != b.order.id
  {
  }

  lemma {:induction false} AddAllKeepsBest<T(!new)>(quotes: seq<Quote<T>>, kind: nat)
    requires DistinctIds(quotes) && kind < 3
    ensures IsKindBest(quotes, kind, AddAll(quotes)[kind])
  {
    if quotes != [] {
      var before, q := quotes[..|quotes| - 1], quotes[|quotes| - 1];
      AddAllKeepsBest(before, kind);
      assert forall x :: x in quotes <==> x in before || x == q;
      var was := AddAll(before)[kind];
      if KindOf(q.order) == kind && was.Some? {
        var b := was.value;
        assert b.order.id != q.order.id by { NotBefore(quotes, b); }
        KindLaterIsTotal(q.order, b.order, b.order);
        forall x | x in quotes && x != q && KindOf(x.order) == kind && KindLater(q.order, b.order)
          ensures KindLater(q.order, x.order) {
          KindLaterIsTotal(q.order, b.order, x.order);
        }
      }
    }
  }

  lemma NotBefore<T(!new)>(quotes: seq<Quote<T>>, b: Quote<T>)
    requires quotes != [] && DistinctIds(quotes) && b in quotes[..|quotes| - 1]
    ensures b.order.id != quotes[|quotes| - 1].order.id
  {
  }

  lemma KindBestIsUnique<T(!new)>(a: seq<Quote<T>>, b: seq<Quote<T>>, kind: nat, x: Option<Quote<T>>,
                                  y: Option<Quote<T>>)
    requires forall q :: q in a <==> q in b
    requires IsKindBest(a, kind, x) && IsKindBest(b, kind, y)
    ensures x == y
  {
    if x.Some? && y.Some? && x != y { KindLaterIsTotal(x.value.order, y.value.order, x.value.order); }
  }

  /** The selected quote does not depend on the order in which quotes were added. */
  lemma SelectionIgnoresOrder<T(!new)>(a: seq<Quote<T>>, b: seq<Quote<T>>)
    requires DistinctIds(a) && DistinctIds(b) && forall q :: q in a <==> q in b
    ensures Best(AddAll(a)) == Best(AddAll(b))
  {
    forall kind | 0 <= kind < 3 ensures AddAll(a)[kind] == AddAll(b)[kind] {
      AddAllKeepsBest(a, kind);
      AddAllKeepsBest(b, kind);
      KindBestIsUnique(a, b, kind, AddAll(a)[kind], AddAll(b)[kind]);
    }
    assert AddAll(a) == AddAll(b);
  }

  /** The class representatives among which the selection is the latest. */
  ghost predicate IsLatest<T(!new)>(best: seq<Option<Quote<T>>>, selected: Option<Quote<T>>) {
    match selected
    case None => forall k :: 0 <= k < |best| ==> best[k].None?
    case Some(s) =>
      && Some(s) in best
      && forall k ::
           0 <= k < |best| && best[k].Some? && best[k].value != s ==> CurrentLater(s.order, best[k].value.order)
  }

  lemma {:induction false} BestIsLatest<T(!new)>(best: seq<Option<Quote<T>>>)
    requires forall i, j ::
               0 <= i < j < |best| && best[i].Some? && best[j].Some?
               ==> best[i].value.order.id != best[j].value.order.id
    ensures IsLatest(best, Best(best))
  {
    if best != [] {
      var n := |best| - 1;
      BestIsLatest(best[..n]);
      var before := Best(best[..n]);
      if best[n].Some? && before.Some? {
        CurrentLaterIsTotal(best[n].value.order, before.value.order, before.value.order);
        forall k | 0 <= k < n && best[k].Some?
          ensures CurrentLater(best[n].value.order, before.value.order)
                  ==> CurrentLater(best[n].value.order, best[k].value.order)
        {
          assert best[..n][k] == best[k];
          CurrentLaterIsTotal(best[n].value.order, before.value.order, best[k].value.order);
        }
      }
    }
  }

  /** What is selected: the best of its own class, and later than the best of the other classes. */
  lemma SelectedIsLatestOfTheBest<T(!new)>(quotes: seq<Quote<T>>)
    requires DistinctIds(quotes)
    ensures var s := Best(AddAll(quotes));
            && (s.None? <==> quotes == [])
            && (s.Some? ==> IsKindBest(quotes, KindOf(s.value.order), s))
            && IsLatest(AddAll(quotes), s)
  {
    hide AddAll, Best;
    var best := AddAll(quotes);
    AddAllKeepsBest(quotes, 0);
    AddAllKeepsBest(quotes, 1);
    AddAllKeepsBest(quotes, 2);
    forall i, j | 0 <= i < j < |best| && best[i].Some? && best[j].Some?
      ensures best[i].value.order.id != best[j].value.order.id {
      assert IsKindBest(quotes, i, best[i]) && IsKindBest(quotes, j, best[j]);
      IdsDiffer(quotes, best[i].value, best[j].value);
    }
    BestIsLatest(best);
    if quotes != [] {
      var k := KindOf(quotes[0].order);
      assert quotes[0] in quotes && IsKindBest(quotes, k, best[k]);
    }
    var s := Best(best);
    if s.Some? {
      var k :| 0 <= k < |best| && best[k] == s;
      assert IsKindBest(quotes, k, best[k]);
    }
  }

  // ----- Why classes are kept apart

  /** Comparing any two quotes directly: daily quotes by date, others by time. */
  predicate Pairwise(a: Order, b: Order) {
    if a.date != 0 && b.date != 0 && a.date != b.date then a.date > b.date else CurrentLater(a, b)
  }

  /** One running maximum under the direct comparison. */
  function PairwiseLast(orders: seq<Order>): Option<Order> {
    if orders == [] then None
    else
      var before := PairwiseLast(orders[..|orders| - 1]);
      var o := orders[|orders| - 1];
      if before.None? || Pairwise(o, before.value) then Some(o) else before
  }

  /** The direct comparison has a cycle, so what it keeps depends on the order of arrival. */
  lemma PairwiseHasACycle()
    ensures var newer := Order(false, 1, 0, 1, 2, 0, 0);
            var older := Order(false, 3, 0, 2, 1, 0, 0);
            var realtime := Order(false, 2, 0, 3, 0, 0, 0);
            && Pairwise(newer, older) && Pairwise(older, realtime) && Pairwise(realtime, newer)
            && PairwiseLast([newer, older, realtime]) == Some(realtime)
            && PairwiseLast([older, realtime, newer]) == Some(newer)
  {
    var newer := Order(false, 1, 0, 1, 2, 0, 0);
    var older := Order(false, 3, 0, 2, 1, 0, 0);
    var realtime := Order(false, 2, 0, 3, 0, 0, 0);
    PairwiseOfThree(newer, older, realtime);
    PairwiseOfThree(older, realtime, newer);
  }

  lemma PairwiseOfThree(a: Order, b: Order, c: Order)
    ensures var two := if Pairwise(b, a) then b else a;
            PairwiseLast([a, b, c]) == Some(if Pairwise(c, two) then c else two)
  {
    assert [a, b, c][..2] == [a, b] && [a, b][..1] == [a] && [a][..0] == [];
    assert PairwiseLast([a]) == Some(a);
  }
}
