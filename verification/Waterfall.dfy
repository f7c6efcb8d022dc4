/** The asset-change waterfall: exact aggregation, rounding and remainder distribution. */
module Waterfall {
  import opened AnalysisModel
  import opened MoneyRounding
  import opened Sorting
  import opened Sums

  /** A display order: every bucket once. */
  ghost predicate ListsBuckets(buckets: seq<Bucket>) {
    Distinct(buckets) && |buckets| == 11 && forall b: Bucket :: b in buckets
  }

  lemma DisplayOrder()
    ensures ListsBuckets(ORDERED_BUCKETS)
  {
    forall b: Bucket ensures b in ORDERED_BUCKETS {
      match b
      case ExternalFlow => assert ORDERED_BUCKETS[0] == b;
      case Income => assert ORDERED_BUCKETS[1] == b;
      case Spending => assert ORDERED_BUCKETS[2] == b;
      case DividendInterest => assert ORDERED_BUCKETS[3] == b;
      case PriceChange => assert ORDERED_BUCKETS[4] == b;
      case FxImpact => assert ORDERED_BUCKETS[5] == b;
      case FxConversionSpread => assert ORDERED_BUCKETS[6] == b;
      case Fee => assert ORDERED_BUCKETS[7] == b;
      case LiabilityImpact => assert ORDERED_BUCKETS[8] == b;
      case Adjustment => assert ORDERED_BUCKETS[9] == b;
      case Residual => assert ORDERED_BUCKETS[10] == b;
    }
  }

  // ----- Aggregation of component days

  /** What a day adds to a bucket: its exact amount, or its rounded one when it has no exact ones. */
  function AmountIn(day: ComponentDay, b: Bucket): real {
    if |day.exactBuckets| > 0 then
      if b in day.exactBuckets then day.exactBuckets[b] else 0.0
    else
      if b in day.assetBuckets then day.assetBuckets[b].units as real else 0.0
  }

  function DayAmount(b: Bucket): ComponentDay -> real {
    (day: ComponentDay) => AmountIn(day, b)
  }

  lemma NextDayAdds(days: seq<ComponentDay>, i: nat, b: Bucket)
    requires i < |days|
    ensures SumOver(days[..i + 1], DayAmount(b)) == SumOver(days[..i], DayAmount(b)) + AmountIn(days[i], b)
  {
    assert days[..i + 1] == days[..i] + [days[i]];
    SumAppend(days[..i], [days[i]], DayAmount(b));
    assert SumOver([days[i]], DayAmount(b)) == DayAmount(b)(days[i]);
  }

  method AggregateAssetWaterfall(days: seq<ComponentDay>) returns (waterfall: map<Bucket, real>)
    ensures forall b :: Exact(waterfall)(b) == SumOver(days, DayAmount(b))
  {
    hide SumOver;
    waterfall := map[];
    forall b ensures SumOver(days[..0], DayAmount(b)) == 0.0 {
      SumZero(days[..0], DayAmount(b));
    }
    for i := 0 to |days|
      invariant forall b :: Exact(waterfall)(b) == SumOver(days[..i], DayAmount(b))
    {
      var day := days[i];
      ghost var before := waterfall;
      var rest := if |day.exactBuckets| > 0 then day.exactBuckets.Keys else day.assetBuckets.Keys;
      ghost var all := rest;
      while rest != {}
        invariant rest <= all
        invariant forall b ::
                    Exact(waterfall)(b) == Exact(before)(b) + if b in all - rest then AmountIn(day, b) else 0.0
      {
        var b :| b in rest;
        var amount := if |day.exactBuckets| > 0 then day.exactBuckets[b] else day.assetBuckets[b].units as real;
        waterfall := waterfall[b := (if b in waterfall then waterfall[b] else 0.0) + amount];
        rest := rest - {b};
        assert AmountIn(day, b) == amount;
      }
      forall b ensures Exact(waterfall)(b) == SumOver(days[..i + 1], DayAmount(b)) {
        NextDayAdds(days, i, b);
        assert b !in all ==> AmountIn(day, b) == 0.0;
      }
    }
    assert days[..|days|] == days;
  }

  // ----- Rounding with a remainder

  /** Every amount outside `moved` is rounded on its own, and no zero row is kept. */
  ghost predicate RoundsAllBut<K(!new)>(values: map<K, real>, rounded: map<K, int>, moved: iset<K>) {
    && rounded.Keys <= values.Keys
    && (forall k :: k in rounded ==> rounded[k] != 0)
    && (forall k :: k !in moved ==> Units(rounded)(k) == HalfEven(Exact(values)(k)) as real)
  }

  /** The first key of `keys` whose nonzero amount is largest in magnitude. */
  ghost predicate IsLargest<K>(keys: seq<K>, values: map<K, real>, k: K) {
    && k in keys && Exact(values)(k) != 0.0
    && exists i :: 0 <= i < |keys| && keys[i] == k
         && (forall j :: 0 <= j < |keys| ==> Abs(Exact(values)(keys[j])) <= Abs(Exact(values)(k)))
         && (forall j :: 0 <= j < i ==> Abs(Exact(values)(keys[j])) < Abs(Exact(values)(k)))
  }

  method RoundEach<K(==, !new)>(values: map<K, real>, ghost keys: seq<K>)
    returns (rounded: map<K, int>, exactTotal: real, roundedTotal: int)
    requires Covers(keys, values)
    ensures RoundsAllBut(values, rounded, iset{})
    ensures exactTotal == SumOver(keys, Exact(values))
    ensures roundedTotal as real == SumOver(keys, Units(rounded))
  {
    hide HalfEven, SumOver;
    rounded, exactTotal, roundedTotal := map[], 0.0, 0;
    HalfEvenOfUnits(0);
    var rest := values.Keys;
    ghost var done: map<K, real> := map[];
    SumZero(keys, Exact(done));
    SumZero(keys, Units(rounded));
    while rest != {}
      invariant rest <= values.Keys && done.Keys == values.Keys - rest
      invariant forall k :: k in done ==> done[k] == values[k]
      invariant RoundsAllBut(done, rounded, iset{})
      invariant exactTotal == SumOver(keys, Exact(done))
      invariant roundedTotal as real == SumOver(keys, Units(rounded))
    {
      var k :| k in rest;
      var value := HalfEven(values[k]);
      ghost var done', rounded' := done, rounded;
      exactTotal := exactTotal + values[k];
      if value != 0 {
        rounded := rounded[k := value];
      }
      roundedTotal := roundedTotal + value;
      rest := rest - {k};
      done := done[k := values[k]];
      RoundOneMore(keys, values, done', rounded', k, value, done, rounded);
    }
    assert done == values;
  }

  lemma RoundOneMore<K(!new)>(keys: seq<K>, values: map<K, real>, done: map<K, real>, rounded: map<K, int>, k: K,
                              value: int,
                              done': map<K, real>, rounded': map<K, int>)
    requires Covers(keys, values) && k in values && k !in done && RoundsAllBut(done, rounded, iset{})
    requires value == HalfEven(values[k]) && done' == done[k := values[k]]
    requires rounded' == if value != 0 then rounded[k := value] else rounded
    ensures RoundsAllBut(done', rounded', iset{})
    ensures SumOver(keys, Exact(done')) == SumOver(keys, Exact(done)) + values[k]
    ensures SumOver(keys, Units(rounded')) == SumOver(keys, Units(rounded)) + value as real
  {
    hide HalfEven;
    assert Exact(done)(k) == 0.0 && Units(rounded)(k) == 0.0;
    assert Exact(done')(k) == values[k] && Units(rounded')(k) == value as real;
    SumChange(keys, Exact(done), Exact(done'), k);
    SumChange(keys, Units(rounded), Units(rounded'), k);
  }

  function HalfUnits(n: nat): real {
    n as real * 0.5
  }

  /** Rounding each of n amounts moves their total by at most n half units. */
  lemma RoundedTotalIsNear<K(!new)>(keys: seq<K>, values: map<K, real>, rounded: map<K, int>)
    requires Covers(keys, values) && RoundsAllBut(values, rounded, iset{})
    ensures Abs(SumOver(keys, Exact(values)) - SumOver(keys, Units(rounded))) <= HalfUnits(|values|)
  {
    SumDistance(keys, Exact(values), Units(rounded), k => if k in values then 0.5 else 0.0);
    SumOfHalves(keys, values);
  }

  method Largest<K(==, !new)>(keys: seq<K>, values: map<K, real>) returns (selected: Option<K>)
    requires Covers(keys, values)
    ensures selected.None? ==> forall k :: Exact(values)(k) == 0.0
    ensures selected.Some? ==> IsLargest(keys, values, selected.value)
  {
    selected := None;
    var best := 0.0;
    ghost var at := 0;
    for i := 0 to |keys|
      invariant selected.None? ==> best == 0.0 && forall j :: 0 <= j < i ==> Exact(values)(keys[j]) == 0.0
      invariant selected.Some? ==>
        && 0 <= at < i && keys[at] == selected.value && best == Abs(Exact(values)(selected.value)) && best != 0.0
        && (forall j :: 0 <= j < i ==> Abs(Exact(values)(keys[j])) <= best)
        && (forall j :: 0 <= j < at ==> Abs(Exact(values)(keys[j])) < best)
    {
      var k := keys[i];
      if k in values && values[k] != 0.0 {
        if selected.None? || Abs(values[k]) > best {
          selected, best := Some(k), Abs(values[k]);
          at := i;
        }
      }
    }
    if selected.None? {
      forall k ensures Exact(values)(k) == 0.0 {
        if k in values { assert k in keys; }
      }
    }
  }

  /** Adds what the rounded amounts lack of `target` to the largest amount. */
  method DistributeRemainder<K(==, !new)>(keys: seq<K>, values: map<K, real>, before: map<K, int>, roundedTotal: int,
                                          target: int)
    returns (rounded: map<K, int>)
    requires Covers(keys, values) && RoundsAllBut(values, before, iset{})
    requires roundedTotal as real == SumOver(keys, Units(before))
    ensures RoundsAllBut(values, rounded, iset k | IsLargest(keys, values, k))
    ensures (exists k :: Exact(values)(k) != 0.0) ==> SumOver(keys, Units(rounded)) == target as real
    ensures (forall k :: Exact(values)(k) == 0.0) ==> rounded == before == map[] && SumOver(keys, Units(rounded)) == 0.0
    ensures forall k :: Abs(Units(rounded)(k) - Units(before)(k)) <= Abs((target - roundedTotal) as real)
  {
    hide HalfEven, SumOver, IsLargest;
    var remainder := target - roundedTotal;
    rounded := before;
    if forall k :: Exact(values)(k) == 0.0 {
      HalfEvenOfUnits(0);
      assert forall k :: k in before ==> Units(before)(k) == HalfEven(Exact(values)(k)) as real;
      SumZero(keys, Units(before));
    }
    if remainder == 0 {
      return;
    }
    var largest := Largest(keys, values);
    if largest.Some? {
      var k := largest.value;
      var value := (if k in before then before[k] else 0) + remainder;
      if value == 0 {
        rounded := before - {k};
      } else {
        rounded := before[k := value];
      }
      OneRowMoves(keys, values, before, rounded, k, remainder);
    }
  }

  lemma OneRowMoves<K(!new)>(keys: seq<K>, values: map<K, real>, before: map<K, int>, rounded: map<K, int>, k: K,
                             remainder: int)
    requires Covers(keys, values) && RoundsAllBut(values, before, iset{}) && IsLargest(keys, values, k)
    requires var value := (if k in before then before[k] else 0) + remainder;
             rounded == if value == 0 then before - {k} else before[k := value]
    ensures RoundsAllBut(values, rounded, iset j | IsLargest(keys, values, j))
    ensures SumOver(keys, Units(rounded)) == SumOver(keys, Units(before)) + remainder as real
    ensures forall j :: Abs(Units(rounded)(j) - Units(before)(j)) <= Abs(remainder as real)
  {
    hide HalfEven, SumOver;
    assert Units(rounded)(k) == Units(before)(k) + remainder as real;
    SumChange(keys, Units(before), Units(rounded), k);
  }

  /** The rounded rows add up to the reported change whenever the exact total rounds to it;
      otherwise every row is rounded on its own. Either way only a largest row moves, and by at
      most n + 1 half units for n amounts. */
  ghost predicate IsReconciled<K(!new)>(keys: seq<K>, values: map<K, real>, change: Option<int>, rounded: map<K, int>) {
    && (if change.Some? && HalfEven(SumOver(keys, Exact(values))) == change.value
        then SumOver(keys, Units(rounded)) == change.value as real
        else RoundsAllBut(values, rounded, iset{}))
    && RoundsAllBut(values, rounded, iset k | IsLargest(keys, values, k))
    && forall k :: Abs(Units(rounded)(k) - HalfEven(Exact(values)(k)) as real) <= HalfUnits(|values| + 1)
  }

  /** Rounds every amount and, when the exact total rounds to the reported change, gives the
      rounding remainder to the largest amount. */
  method ReconcileToChange<K(==, !new)>(keys: seq<K>, values: map<K, real>, change: Option<int>)
    returns (rounded: map<K, int>)
    requires Covers(keys, values)
    ensures IsReconciled(keys, values, change, rounded)
  {
    hide HalfEven, SumOver, IsLargest;
    var exactTotal, roundedTotal;
    rounded, exactTotal, roundedTotal := RoundEach(values, keys);
    if change.None? || HalfEven(exactTotal) != change.value {
      return;
    }
    ghost var before := rounded;
    rounded := DistributeRemainder(keys, values, rounded, roundedTotal, change.value);
    DistributedIsReconciled(keys, values, before, roundedTotal, change.value, rounded);
  }

  /** The remainder is at most one half unit a row and one half unit for the total. */
  lemma DistributedIsReconciled<K(!new)>(keys: seq<K>, values: map<K, real>, before: map<K, int>, roundedTotal: int,
                                         target: int, rounded: map<K, int>)
    requires Covers(keys, values) && RoundsAllBut(values, before, iset{})
    requires roundedTotal as real == SumOver(keys, Units(before)) && target == HalfEven(SumOver(keys, Exact(values)))
    requires RoundsAllBut(values, rounded, iset k | IsLargest(keys, values, k))
    requires (exists k :: Exact(values)(k) != 0.0) ==> SumOver(keys, Units(rounded)) == target as real
    requires (forall k :: Exact(values)(k) == 0.0) ==> rounded == before && SumOver(keys, Units(rounded)) == 0.0
    requires forall k :: Abs(Units(rounded)(k) - Units(before)(k)) <= Abs((target - roundedTotal) as real)
    ensures IsReconciled(keys, values, Some(target), rounded)
  {
    hide HalfEven, IsLargest, SumOver;
    RoundedTotalIsNear(keys, values, before);
    RemainderBound(SumOver(keys, Exact(values)), roundedTotal, |values|);
    forall k ensures Abs(Units(rounded)(k) - HalfEven(Exact(values)(k)) as real) <= HalfUnits(|values| + 1) {
      assert Units(before)(k) == HalfEven(Exact(values)(k)) as real;
    }
    if forall k :: Exact(values)(k) == 0.0 {
      HalfEvenOfUnits(0);
      SumZero(keys, Exact(values));
    }
  }

  lemma RemainderBound(exact: real, rounded: int, n: nat)
    requires Abs(exact - rounded as real) <= HalfUnits(n)
    ensures Abs((HalfEven(exact) - rounded) as real) <= HalfUnits(n + 1)
  {
    HalfEvenIsUnique(exact, HalfEven(exact));
  }

  // ----- Drill-down of one driver

  /** Rounds the parts of one waterfall row so that they add up to the row. The keys are
      account and instrument group keys, sorted; the empty string marks "none selected" and is
      never a key. */
  method ReconcileDimensionAmounts(values: map<string, real>, target: int, ghost keys: seq<string>)
    returns (rounded: map<string, int>)
    requires "" !in values && Covers(keys, values)
    ensures (exists k :: Exact(values)(k) != 0.0) ==> SumOver(keys, Units(rounded)) == target as real
    ensures (forall k :: Exact(values)(k) == 0.0) ==> SumOver(keys, Units(rounded)) == 0.0
    ensures exists sorted: seq<string> ::
      (IsSortedListOf(sorted, values.Keys) && RoundsAllBut(values, rounded, iset k | IsLargest(sorted, values, k)))
  {
    var sorted := SortedList(values.Keys);
    var exactTotal, roundedTotal;
    rounded, exactTotal, roundedTotal := RoundEach(values, sorted);
    rounded := DistributeRemainder(sorted, values, rounded, roundedTotal, target);
    SumOfCovers(sorted, keys, values, rounded);
  }

  /** Any two listings that cover the amounts give the same total of the rounded ones. */
  lemma SumOfCovers<K(!new)>(a: seq<K>, b: seq<K>, values: map<K, real>, rounded: map<K, int>)
    requires Covers(a, values) && Covers(b, values) && rounded.Keys <= values.Keys
    ensures SumOver(a, Units(rounded)) == SumOver(b, Units(rounded))
  {
    var amounts := map k | k in rounded :: rounded[k] as real;
    ExactSumOver(a, amounts);
    ExactSumOver(b, amounts);
    SumEqual(a, Exact(amounts), Units(rounded));
    SumEqual(b, Exact(amounts), Units(rounded));
  }

  /** The amount of a day in a bucket, unless it is zero or the day has no currency to show it in. */
  function AssetBucketAmount(day: ComponentDay, b: Bucket): Option<real> {
    if |day.exactBuckets| > 0 then
      if b !in day.exactBuckets || day.exactBuckets[b] == 0.0 then None
      else if day.ending.currency == "" && day.beginning.currency == "" && day.component.currency == "" then None
      else Some(day.exactBuckets[b])
    else
      if b !in day.assetBuckets || day.assetBuckets[b].units == 0 || day.assetBuckets[b].currency == "" then None
      else Some(day.assetBuckets[b].units as real)
  }

  /** A day that carries amounts names its currency, its account and its instrument. */
  ghost predicate WellLabelled(day: ComponentDay) {
    && day.component.account != "" && day.component.instrument != Some("")
    && (|day.exactBuckets| > 0 ==>
         day.ending.currency != "" || day.beginning.currency != "" || day.component.currency != "")
    && (forall b :: b in day.assetBuckets ==> day.assetBuckets[b].currency != "")
  }

  /** A row without an exact amount is never the one that takes the remainder. */
  lemma ZeroRowStaysZero(buckets: seq<Bucket>, waterfall: map<Bucket, real>, change: Option<int>,
                         rounded: map<Bucket, int>, b: Bucket)
    requires IsReconciled(buckets, waterfall, change, rounded)
    ensures Exact(waterfall)(b) == 0.0 ==> Units(rounded)(b) == 0.0
  {
    assert Exact(waterfall)(b) == 0.0 ==> !IsLargest(buckets, waterfall, b);
  }

  /** The rows of one driver by account and by instrument, each adding up to `row`, which is
      zero when the days add nothing to the bucket. */
  method FoldDriverRows(days: seq<ComponentDay>, bucket: Bucket, row: int, ghost accounts: seq<string>,
                        ghost instruments: seq<string>)
    returns (byAccount: map<string, int>, byInstrument: map<string, int>)
    requires forall day :: day in days ==> WellLabelled(day)
    requires Distinct(accounts) && Distinct(instruments)
    requires forall day ::
               day in days ==> day.component.account in accounts && InstrumentGroupKey(day.component) in instruments
    requires SumOver(days, DayAmount(bucket)) == 0.0 ==> row == 0
    ensures SumOver(accounts, Units(byAccount)) == row as real
    ensures SumOver(instruments, Units(byInstrument)) == row as real
  {
    hide HalfEven, SumOver, AmountIn, InstrumentGroupKey, IsLargest, RoundsAllBut;
    var account, instrument: map<string, real> := map[], map[];
    SumZero(accounts, Exact(account));
    SumZero(instruments, Exact(instrument));
    SumZero(days[..0], DayAmount(bucket));
    for i := 0 to |days|
      invariant Covers(accounts, account) && Covers(instruments, instrument)
      invariant "" !in account && "" !in instrument
      invariant SumOver(accounts, Exact(account)) == SumOver(days[..i], DayAmount(bucket))
      invariant SumOver(instruments, Exact(instrument)) == SumOver(days[..i], DayAmount(bucket))
    {
      var day := days[i];
      assert day in days;
      var amount := AssetBucketAmount(day, bucket);
      SumLast(days, i, DayAmount(bucket));
      AssetBucketAmountIsWhole(day, bucket);
      if amount.Some? {
        AddToTotal(accounts, account, day.component.account, amount.value);
        AddToTotal(instruments, instrument, InstrumentGroupKey(day.component), amount.value);
        account := AddTo(account, day.component.account, amount.value);
        instrument := AddTo(instrument, InstrumentGroupKey(day.component), amount.value);
      }
    }
    assert days[..|days|] == days;
    byAccount := ReconcileDimensionAmounts(account, row, accounts);
    byInstrument := ReconcileDimensionAmounts(instrument, row, instruments);
    if forall k :: Exact(account)(k) == 0.0 { SumZero(accounts, Exact(account)); }
    if forall k :: Exact(instrument)(k) == 0.0 { SumZero(instruments, Exact(instrument)); }
  }

  lemma AssetBucketAmountIsWhole(day: ComponentDay, b: Bucket)
    requires WellLabelled(day)
    ensures DayAmount(b)(day) == if AssetBucketAmount(day, b).Some? then AssetBucketAmount(day, b).value else 0.0
    ensures InstrumentGroupKey(day.component) != ""
  {
  }

  lemma AddToTotal(keys: seq<string>, m: map<string, real>, k: string, amount: real)
    requires Covers(keys, m) && k in keys
    ensures Covers(keys, AddTo(m, k, amount))
    ensures SumOver(keys, Exact(AddTo(m, k, amount))) == SumOver(keys, Exact(m)) + amount
  {
    SumChange(keys, Exact(m), Exact(AddTo(m, k, amount)), k);
  }

  /** The rows are the reconciled exact totals of the days; ties between largest rows go by the
      display order of the buckets. */
  ghost predicate IsPublicWaterfall(buckets: seq<Bucket>, days: seq<ComponentDay>, change: Option<int>,
                                    rounded: map<Bucket, int>) {
    exists waterfall ::
      && (forall b :: Exact(waterfall)(b) == SumOver(days, DayAmount(b)))
      && IsReconciled(buckets, waterfall, change, rounded)
  }

  /** The account rows and the instrument rows of a driver each add up to its waterfall row. */
  method FoldAssetDriverDetail(buckets: seq<Bucket>, days: seq<ComponentDay>, change: Option<int>, bucket: Bucket,
                               ghost accounts: seq<string>, ghost instruments: seq<string>)
    returns (roundedWaterfall: map<Bucket, int>, byAccount: map<string, int>, byInstrument: map<string, int>)
    requires forall day :: day in days ==> WellLabelled(day)
    requires Distinct(accounts) && Distinct(instruments)
    requires forall day ::
               day in days ==> day.component.account in accounts && InstrumentGroupKey(day.component) in instruments
    requires ListsBuckets(buckets)
    ensures IsPublicWaterfall(buckets, days, change, roundedWaterfall)
    ensures SumOver(accounts, Units(byAccount)) == Units(roundedWaterfall)(bucket)
    ensures SumOver(instruments, Units(byInstrument)) == Units(roundedWaterfall)(bucket)
  {
    hide HalfEven, SumOver, IsReconciled, IsLargest, AmountIn, WellLabelled, InstrumentGroupKey;
    var waterfall := AggregateAssetWaterfall(days);
    roundedWaterfall := ReconcileToChange(buckets, waterfall, change);
    ZeroRowStaysZero(buckets, waterfall, change, roundedWaterfall, bucket);
    assert Exact(waterfall)(bucket) == SumOver(days, DayAmount(bucket));
    var row := if bucket in roundedWaterfall then roundedWaterfall[bucket] else 0;
    byAccount, byInstrument := FoldDriverRows(days, bucket, row, accounts, instruments);
  }
}
