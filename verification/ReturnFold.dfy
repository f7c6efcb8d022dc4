/** Folding component days into return rows: the general bucket-and-sort fold and the one-pass
    chronological fold that replaces it when no day carries capital flows. */
module ReturnFold {
  import opened AnalysisModel
  import opened Sorting
  import opened Sums

  datatype GroupBy = ByInstrument | ByAccount | ByCurrency | ByAssetClass | Unsupported

  datatype Row = Row(key: string, returnAmount: int, amountKnown: bool, rate: Option<real>,
                     ratedDays: nat, totalDays: int, status: Completeness)

  datatype FoldError = UnsupportedGroup | TimezoneRequired | UnknownTimezone | InvalidDate

  datatype Result = Ok(rows: seq<Row>) | Err(error: FoldError)

  /** The instants that start and end a local day; equal when the day is skipped. */
  type DayBounds = Date -> (int, int)

  datatype Timezone = Missing | Unknown | Zone(bounds: DayBounds)

  datatype Analysis = Analysis(days: seq<ComponentDay>, includeCash: bool, totalDays: int, timezone: Timezone)

  predicate Eligible(component: Component, includeCash: bool) {
    component.instrument.Some?
    || (includeCash && component.cash && (component.assetClass == "" || component.assetClass == CASH))
  }

  function GroupKey(component: Component, grouping: GroupBy): string {
    match grouping
    case ByAccount => component.account
    case ByCurrency => component.currency
    case ByInstrument => InstrumentGroupKey(component)
    case ByAssetClass => if component.assetClass != "" then component.assetClass else "unknown"
    case Unsupported => ""
  }

  function DietzFlowWeight(at: int, bounds: (int, int)): real {
    var length := bounds.1 - bounds.0;
    var remaining := bounds.1 - at;
    if length <= 0 || remaining < 0 then 0.0
    else if remaining > length then 1.0
    else remaining as real / length as real
  }

  // ----- The specification: what one group's row is

  function EligibleDays(days: seq<ComponentDay>, includeCash: bool): seq<ComponentDay> {
    if days == [] then []
    else
      var n := |days| - 1;
      EligibleDays(days[..n], includeCash) + if Eligible(days[n].component, includeCash) then [days[n]] else []
  }

  function Items(days: seq<ComponentDay>, grouping: GroupBy, key: string): seq<ComponentDay> {
    if days == [] then []
    else
      var n := |days| - 1;
      Items(days[..n], grouping, key) + if GroupKey(days[n].component, grouping) == key then [days[n]] else []
  }

  datatype DayBucket = DayBucket(amount: int, beginning: int, legacy: int, flows: seq<CapitalFlow>,
                                 complete: bool, usable: bool, known: bool)

  const EMPTY := DayBucket(0, 0, 0, [], true, false, false)

  function FlowOf(attributed: Attributed): Option<CapitalFlow> {
    if attributed.potential.Some? then attributed.potential else attributed.dietz
  }

  function FlowsOf(attributed: seq<Attributed>): seq<CapitalFlow> {
    if attributed == [] then []
    else
      var n := |attributed| - 1;
      FlowsOf(attributed[..n]) + match FlowOf(attributed[n]) case Some(flow) => [flow] case None => []
  }

  predicate IsLegacy(day: ComponentDay) {
    day.attributed == [] && day.investedCapital.Some?
  }

  function AddDay(b: DayBucket, day: ComponentDay): DayBucket {
    DayBucket(
      b.amount + if day.returnAmount.Some? then day.returnAmount.value else 0,
      b.beginning + if IsLegacy(day) then 0 else day.beginning.units,
      b.legacy + if IsLegacy(day) then day.investedCapital.value else 0,
      b.flows + FlowsOf(day.attributed),
      b.complete && day.status.OK?,
      b.usable || !day.status.Unavailable?,
      b.known || day.returnAmount.Some?)
  }

  /** Everything a group has on one date. */
  function BucketOn(items: seq<ComponentDay>, date: Date): DayBucket {
    if items == [] then EMPTY
    else
      var n := |items| - 1;
      if items[n].date == date then AddDay(BucketOn(items[..n], date), items[n]) else BucketOn(items[..n], date)
  }

  /** The dates of a group, each once, as they are first met. */
  function DatesOf(items: seq<ComponentDay>): seq<Date> {
    if items == [] then []
    else
      var n := |items| - 1;
      var front := DatesOf(items[..n]);
      if items[n].date in front then front else front + [items[n].date]
  }

  function WeightedFlows(flows: seq<CapitalFlow>, bounds: (int, int)): real {
    if flows == [] then 0.0
    else
      var n := |flows| - 1;
      WeightedFlows(flows[..n], bounds) + flows[n].units as real * DietzFlowWeight(flows[n].at, bounds)
  }

  function Capital(b: DayBucket, date: Date, zone: Timezone): real {
    (b.beginning + b.legacy) as real + if zone.Zone? then WeightedFlows(b.flows, zone.bounds(date)) else 0.0
  }

  datatype Tally = Tally(rates: seq<real>, completeDays: nat, usableDays: nat)

  /** One more date: it is rated when complete with positive capital. */
  function Count(t: Tally, b: DayBucket, date: Date, zone: Timezone): Tally {
    var capital := Capital(b, date, zone);
    Tally(t.rates + (if b.complete && capital > 0.0 then [b.amount as real / capital] else []),
          t.completeDays + (if b.complete then 1 else 0),
          t.usableDays + (if b.usable then 1 else 0))
  }

  function TallyOf(items: seq<ComponentDay>, dates: seq<Date>, zone: Timezone): Tally {
    if dates == [] then Tally([], 0, 0)
    else
      var n := |dates| - 1;
      Count(TallyOf(items, dates[..n], zone), BucketOn(items, dates[n]), dates[n], zone)
  }

  function ReturnTotal(items: seq<ComponentDay>): int {
    if items == [] then 0
    else
      var n := |items| - 1;
      ReturnTotal(items[..n]) + if items[n].returnAmount.Some? then items[n].returnAmount.value else 0
  }

  predicate AmountKnown(items: seq<ComponentDay>) {
    exists i :: 0 <= i < |items| && items[i].returnAmount.Some?
  }

  function Linked(rates: seq<real>): real {
    if rates == [] then 1.0 else Linked(rates[..|rates| - 1]) * (1.0 + rates[|rates| - 1])
  }

  function GroupCompleteness(complete: int, usable: int, total: int): Completeness {
    if total > 0 && complete == total then OK else if usable > 0 then Partial else Unavailable
  }

  function DateLeq(): (Date, Date) -> bool {
    (a: Date, b: Date) => a <= b
  }

  /** The published row of a tally: a rate only when at least half of the days are rated. */
  function RowOf(key: string, amount: int, known: bool, t: Tally, totalDays: int): Row {
    Row(key, amount, known,
        if |t.rates| * 2 >= totalDays && |t.rates| > 0 then Some(Linked(t.rates) - 1.0) else None,
        |t.rates|, totalDays, GroupCompleteness(t.completeDays, t.usableDays, totalDays))
  }

  function GroupRow(items: seq<ComponentDay>, key: string, a: Analysis): Row {
    RowOf(key, ReturnTotal(items), AmountKnown(items),
          TallyOf(items, Sort(DatesOf(items), DateLeq()), a.timezone), a.totalDays)
  }

  function KeysOf(days: seq<ComponentDay>, grouping: GroupBy): set<string> {
    set day | day in days :: GroupKey(day.component, grouping)
  }

  predicate HasFlow(day: ComponentDay) {
    exists i :: 0 <= i < |day.attributed| && FlowOf(day.attributed[i]).Some?
  }

  /** The only result a fold may have: an error for an unsupported grouping or for flows whose
      day cannot be placed, and otherwise one row a group, in key order. */
  ghost predicate IsFold(r: Result, a: Analysis, grouping: GroupBy) {
    var days := EligibleDays(a.days, a.includeCash);
    if exists day :: day in days && GroupKey(day.component, grouping) == "" then r == Err(UnsupportedGroup)
    else if (exists day :: day in days && HasFlow(day)) && a.timezone.Missing? then r == Err(TimezoneRequired)
    else if (exists day :: day in days && HasFlow(day)) && a.timezone.Unknown? then r == Err(UnknownTimezone)
    else if exists day :: day in days && HasFlow(day) && day.date == 0 then r == Err(InvalidDate)
    else
      && r.Ok?
      && IsSortedListOf(seq(|r.rows|, i requires 0 <= i < |r.rows| => r.rows[i].key), KeysOf(days, grouping))
      && forall i :: 0 <= i < |r.rows| ==> r.rows[i] == GroupRow(Items(days, grouping, r.rows[i].key), r.rows[i].key, a)
  }

  lemma FoldIsUnique(r: Result, s: Result, a: Analysis, grouping: GroupBy)
    requires IsFold(r, a, grouping) && IsFold(s, a, grouping)
    ensures r == s
  {
    if r.Ok? && s.Ok? {
      var days := EligibleDays(a.days, a.includeCash);
      var rKeys := seq(|r.rows|, i requires 0 <= i < |r.rows| => r.rows[i].key);
      var sKeys := seq(|s.rows|, i requires 0 <= i < |s.rows| => s.rows[i].key);
      SortedListIsUnique(rKeys, sKeys, KeysOf(days, grouping));
      assert |r.rows| == |rKeys| == |sKeys| == |s.rows|;
      forall i | 0 <= i < |r.rows| ensures r.rows[i] == s.rows[i] {
        assert r.rows[i].key == rKeys[i] == sKeys[i] == s.rows[i].key;
      }
    }
  }

  // ----- Facts about one group

  lemma {:induction false} DatesAreDistinct(items: seq<ComponentDay>)
    ensures Distinct(DatesOf(items))
    ensures forall d: Date :: d in DatesOf(items) <==> exists i :: 0 <= i < |items| && items[i].date == d
  {
    if items != [] {
      var n := |items| - 1;
      DatesAreDistinct(items[..n]);
      forall d: Date ensures d in DatesOf(items) <==> exists i :: 0 <= i < |items| && items[i].date == d {
        if d in DatesOf(items) {
          if d == items[n].date {
          } else {
            var i :| 0 <= i < n && items[..n][i].date == d;
            assert items[i].date == d;
          }
        }
        if i :| 0 <= i < |items| && items[i].date == d && i < n {
          assert items[..n][i].date == d;
        }
      }
    }
  }

  lemma {:induction false} NothingOn(items: seq<ComponentDay>, date: Date)
    requires forall i :: 0 <= i < |items| ==> items[i].date != date
    ensures BucketOn(items, date) == EMPTY
  {
    if items != [] { NothingOn(items[..|items| - 1], date); }
  }

  function AmountAt(items: seq<ComponentDay>): Date -> real {
    (d: Date) => BucketOn(items, d).amount as real
  }

  /** The amounts of the dates of a group add up to its return. */
  lemma {:induction false} AmountsByDate(items: seq<ComponentDay>)
    ensures SumOver(DatesOf(items), AmountAt(items)) == ReturnTotal(items) as real
  {
    if items != [] {
      var n := |items| - 1;
      var front, d := items[..n], items[n].date;
      AmountsByDate(front);
      DatesAreDistinct(front);
      if d in DatesOf(front) {
        SumChange(DatesOf(front), AmountAt(front), AmountAt(items), d);
      } else {
        NothingOn(front, d);
        SumAppend(DatesOf(front), [d], AmountAt(items));
        SumEqual(DatesOf(front), AmountAt(front), AmountAt(items));
        assert SumOver([d], AmountAt(items)) == AmountAt(items)(d);
      }
    }
  }

  lemma {:induction false} KnownByDate(items: seq<ComponentDay>, d: Date)
    ensures BucketOn(items, d).known
            <==> exists i :: 0 <= i < |items| && items[i].date == d && items[i].returnAmount.Some?
  {
    if items != [] {
      var n := |items| - 1;
      KnownByDate(items[..n], d);
      if i :| 0 <= i < |items| && items[i].date == d && items[i].returnAmount.Some? && i < n {
        assert items[..n][i] == items[i];
      }
      if i :| 0 <= i < n && items[..n][i].date == d && items[..n][i].returnAmount.Some? {
        assert items[i] == items[..n][i];
      }
    }
  }

  lemma DateOrder()
    ensures TotalOrder(DateLeq())
  {
  }

  // ----- The general fold

  /** The collected dates are those of the days read so far, with a flag that says whether
      they are already in order. */
  ghost predicate CollectedDates(days: seq<ComponentDay>, grouping: GroupBy,
                                 datesByGroup: map<string, seq<Date>>, datesOrdered: map<string, bool>) {
    && datesByGroup.Keys == KeysOf(days, grouping) == datesOrdered.Keys
    && forall k :: k in datesByGroup ==>
         && datesByGroup[k] == DatesOf(Items(days, grouping, k))
         && (datesOrdered[k] <==> Sorted(datesByGroup[k], DateLeq()))
  }

  ghost predicate CollectedBuckets(days: seq<ComponentDay>, grouping: GroupBy,
                                   buckets: map<(string, Date), DayBucket>) {
    forall k, d: Date ::
      && ((k, d) in buckets <==> d in DatesOf(Items(days, grouping, k)))
      && ((k, d) in buckets ==> buckets[(k, d)] == BucketOn(Items(days, grouping, k), d))
  }

  lemma ItemsOfOneMore(days: seq<ComponentDay>, grouping: GroupBy, day: ComponentDay, k: string)
    ensures Items(days + [day], grouping, k) == Items(days, grouping, k)
            + if GroupKey(day.component, grouping) == k then [day] else []
  {
    assert (days + [day])[..|days|] == days;
  }

  lemma {:induction false} ItemsAreEmpty(days: seq<ComponentDay>, grouping: GroupBy, k: string)
    ensures Items(days, grouping, k) == [] <==> k !in KeysOf(days, grouping)
  {
    if days != [] {
      hide GroupKey, KeysOf;
      var n := |days| - 1;
      ItemsAreEmpty(days[..n], grouping, k);
      assert days == days[..n] + [days[n]];
      KeysOfOneMore(days[..n], grouping, days[n]);
    }
  }

  lemma KeysOfOneMore(days: seq<ComponentDay>, grouping: GroupBy, day: ComponentDay)
    ensures KeysOf(days + [day], grouping) == KeysOf(days, grouping) + {GroupKey(day.component, grouping)}
  {
    var all := days + [day];
    assert forall d :: d in all <==> d in days || d == day;
  }

  lemma BucketOfOneMore(items: seq<ComponentDay>, day: ComponentDay, d: Date)
    ensures BucketOn(items + [day], d) == if day.date == d then AddDay(BucketOn(items, d), day) else BucketOn(items, d)
    ensures DatesOf(items + [day]) == if day.date in DatesOf(items) then DatesOf(items) else DatesOf(items) + [day.date]
  {
    assert (items + [day])[..|items|] == items;
  }

  lemma CollectBucket(days: seq<ComponentDay>, grouping: GroupBy, day: ComponentDay,
                      buckets: map<(string, Date), DayBucket>)
    requires CollectedBuckets(days, grouping, buckets)
    ensures var at := (GroupKey(day.component, grouping), day.date);
            CollectedBuckets(days + [day], grouping,
                             buckets[at := AddDay(if at in buckets then buckets[at] else EMPTY, day)])
  {
    hide AddDay, BucketOn, DatesOf, Items, GroupKey;
    var key := GroupKey(day.component, grouping);
    var at := (key, day.date);
    var buckets' := buckets[at := AddDay(if at in buckets then buckets[at] else EMPTY, day)];
    forall k, d: Date
      ensures ((k, d) in buckets' <==> d in DatesOf(Items(days + [day], grouping, k)))
           && ((k, d) in buckets' ==> buckets'[(k, d)] == BucketOn(Items(days + [day], grouping, k), d))
    {
      var items := Items(days, grouping, k);
      ItemsOfOneMore(days, grouping, day, k);
      assert items + [] == items;
      assert (k, d) in buckets <==> d in DatesOf(items);
      if k == key {
        BucketOfOneMore(items, day, d);
        if d !in DatesOf(items) {
          DatesAreDistinct(items);
          NothingOn(items, d);
        }
      }
    }
  }

  lemma CollectDates(days: seq<ComponentDay>, grouping: GroupBy, day: ComponentDay,
                     datesByGroup: map<string, seq<Date>>, datesOrdered: map<string, bool>,
                     datesByGroup': map<string, seq<Date>>, datesOrdered': map<string, bool>)
    requires CollectedDates(days, grouping, datesByGroup, datesOrdered)
    requires var key := GroupKey(day.component, grouping);
             var dates := if key in datesByGroup then datesByGroup[key] else [];
             if day.date in dates then datesByGroup' == datesByGroup && datesOrdered' == datesOrdered
             else && datesByGroup' == datesByGroup[key := dates + [day.date]]
                  && datesOrdered'
                  == datesOrdered[key := |dates| == 0 || (datesOrdered[key] && dates[|dates| - 1] <= day.date)]
    ensures CollectedDates(days + [day], grouping, datesByGroup', datesOrdered')
  {
    hide BucketOn, DatesOf, Items, GroupKey, KeysOf, Sorted;
    var key := GroupKey(day.component, grouping);
    KeysOfOneMore(days, grouping, day);
    var items := Items(days, grouping, key);
    ItemsAreEmpty(days, grouping, key);
    EmptyDates(items);
    BucketOfOneMore(items, day, day.date);
    SortedOneMore(DatesOf(items), day.date);
    forall k | k in datesByGroup'
      ensures datesByGroup'[k] == DatesOf(Items(days + [day], grouping, k))
           && (datesOrdered'[k] <==> Sorted(datesByGroup'[k], DateLeq()))
    {
      ItemsOfOneMore(days, grouping, day, k);
      if k != key {
        assert Items(days, grouping, k) + [] == Items(days, grouping, k);
      }
    }
  }

  lemma EmptyDates(items: seq<ComponentDay>)
    ensures DatesOf(items) == [] <==> items == []
  {
  }

  lemma SortedOneMore(dates: seq<Date>, d: Date)
    ensures Sorted<Date>([], DateLeq())
    ensures Sorted(dates + [d], DateLeq()) <==> Sorted(dates, DateLeq()) && (dates == [] || dates[|dates| - 1] <= d)
  {
    if Sorted(dates + [d], DateLeq()) {
      forall i, j | 0 <= i < j < |dates| ensures DateLeq()(dates[i], dates[j]) {
        assert (dates + [d])[i] == dates[i] && (dates + [d])[j] == dates[j];
      }
      if dates != [] { assert DateLeq()((dates + [d])[|dates| - 1], (dates + [d])[|dates|]); }
    }
    if Sorted(dates, DateLeq()) && (dates == [] || dates[|dates| - 1] <= d) {
      forall i | 0 <= i < |dates| ensures dates[i] <= d {
        assert i == |dates| - 1 || DateLeq()(dates[i], dates[|dates| - 1]);
      }
    }
  }

  method CollectFlows(attributed: seq<Attributed>, flows: seq<CapitalFlow>)
    returns (collected: seq<CapitalFlow>, any: bool)
    ensures collected == flows + FlowsOf(attributed)
    ensures any <==> exists i :: 0 <= i < |attributed| && FlowOf(attributed[i]).Some?
  {
    collected, any := flows, false;
    for i := 0 to |attributed|
      invariant collected == flows + FlowsOf(attributed[..i])
      invariant any <==> exists j :: 0 <= j < i && FlowOf(attributed[j]).Some?
    {
      var flow := if attributed[i].potential.Some? then attributed[i].potential else attributed[i].dietz;
      assert attributed[..i + 1][..i] == attributed[..i];
      if flow.Some? {
        any := true;
        collected := collected + [flow.value];
      }
    }
    assert attributed[..|attributed|] == attributed;
  }

  /** Adds one component day to the bucket of its group and date. */
  method AddComponentDay(bucket: DayBucket, day: ComponentDay) returns (b: DayBucket, any: bool)
    ensures b == AddDay(bucket, day)
    ensures any <==> HasFlow(day)
  {
    b := bucket;
    if !day.status.OK? {
      b := b.(complete := false);
    }
    b := b.(usable := b.usable || !day.status.Unavailable?);
    if day.returnAmount.Some? {
      b := b.(amount := b.amount + day.returnAmount.value, known := true);
    }
    if |day.attributed| == 0 && day.investedCapital.Some? {
      b := b.(legacy := b.legacy + day.investedCapital.value);
    } else {
      b := b.(beginning := b.beginning + day.beginning.units);
    }
    var flows;
    flows, any := CollectFlows(day.attributed, b.flows);
    b := b.(flows := flows);
  }

  lemma EligibleOneMore(days: seq<ComponentDay>, i: nat, includeCash: bool)
    requires i < |days|
    ensures EligibleDays(days[..i + 1], includeCash)
         == EligibleDays(days[..i], includeCash) + if Eligible(days[i].component, includeCash) then [days[i]] else []
  {
    assert days[..i + 1][..i] == days[..i];
  }

  lemma {:induction false} EligiblePrefix(days: seq<ComponentDay>, i: nat, includeCash: bool)
    requires i <= |days|
    ensures EligibleDays(days[..i], includeCash) <= EligibleDays(days, includeCash)
    decreases |days| - i
  {
    if i == |days| {
      assert days[..i] == days;
    } else {
      EligibleOneMore(days, i, includeCash);
      EligiblePrefix(days, i + 1, includeCash);
    }
  }

  lemma {:induction false} FlowsOnDate(items: seq<ComponentDay>, d: Date)
    ensures BucketOn(items, d).flows != [] <==> exists i :: 0 <= i < |items| && items[i].date == d && HasFlow(items[i])
  {
    if items != [] {
      var n := |items| - 1;
      FlowsOnDate(items[..n], d);
      FlowsOfDay(items[n].attributed);
      if i :| 0 <= i < |items| && items[i].date == d && HasFlow(items[i]) && i < n {
        assert items[..n][i] == items[i];
      }
      if i :| 0 <= i < n && items[..n][i].date == d && HasFlow(items[..n][i]) {
        assert items[i] == items[..n][i];
      }
    }
  }

  lemma {:induction false} FlowsOfDay(attributed: seq<Attributed>)
    ensures FlowsOf(attributed) != [] <==> exists i :: 0 <= i < |attributed| && FlowOf(attributed[i]).Some?
  {
    if attributed != [] {
      var n := |attributed| - 1;
      FlowsOfDay(attributed[..n]);
      if i :| 0 <= i < |attributed| && FlowOf(attributed[i]).Some? && i < n {
        assert attributed[..n][i] == attributed[i];
      }
    }
  }

  /** Links daily rates geometrically. */
  method GeometricLink(rates: seq<real>) returns (linked: real)
    ensures linked == Linked(rates) - 1.0
  {
    linked := 1.0;
    for i := 0 to |rates|
      invariant linked == Linked(rates[..i])
    {
      assert rates[..i + 1][..i] == rates[..i];
      linked := linked * (1.0 + rates[i]);
    }
    assert rates[..|rates|] == rates;
    linked := linked - 1.0;
  }

  method MakeRow(key: string, amount: int, known: bool, rates: seq<real>, completeDays: nat, usableDays: nat,
                 totalDays: int)
    returns (row: Row)
    ensures row == RowOf(key, amount, known, Tally(rates, completeDays, usableDays), totalDays)
  {
    var rate: Option<real> := None;
    if |rates| * 2 >= totalDays && |rates| > 0 {
      var linked := GeometricLink(rates);
      rate := Some(linked);
    }
    row := Row(key, amount, known, rate, |rates|, totalDays, GroupCompleteness(completeDays, usableDays, totalDays));
  }

  method CapitalOf(b: DayBucket, date: Date, zone: Timezone) returns (capital: real)
    requires b.flows != [] ==> zone.Zone?
    ensures capital == Capital(b, date, zone)
  {
    capital := (b.beginning + b.legacy) as real;
    if |b.flows| > 0 {
      var bounds := zone.bounds(date);
      for i := 0 to |b.flows|
        invariant capital == (b.beginning + b.legacy) as real + WeightedFlows(b.flows[..i], bounds)
      {
        assert b.flows[..i + 1][..i] == b.flows[..i];
        capital := capital + b.flows[i].units as real * DietzFlowWeight(b.flows[i].at, bounds);
      }
      assert b.flows[..|b.flows|] == b.flows;
    }
  }

  ghost predicate DatesPlaced(items: seq<ComponentDay>) {
    forall i :: 0 <= i < |items| && HasFlow(items[i]) ==> items[i].date != 0
  }

  /** The row of one group from its buckets, in date order. */
  method GroupRowFromBuckets(a: Analysis, key: string, dates: seq<Date>,
                             buckets: map<(string, Date), DayBucket>, ghost items: seq<ComponentDay>)
    returns (ok: bool, row: Row)
    requires dates == Sort(DatesOf(items), DateLeq())
    requires forall d: Date :: d in dates ==> (key, d) in buckets && buckets[(key, d)] == BucketOn(items, d)
    requires (exists i :: 0 <= i < |items| && HasFlow(items[i])) ==> a.timezone.Zone?
    ensures ok <==> DatesPlaced(items)
    ensures ok ==> row == GroupRow(items, key, a)
  {
    hide HasFlow, BucketOn, Sort, DatesOf, ReturnTotal, AmountKnown, Capital, DietzFlowWeight, SumOver, DatesPlaced,
         TallyOf, Count;
    NoTally(items, a.timezone);
    row := Row(key, 0, false, None, 0, a.totalDays, Unavailable);
    var rates: seq<real>, completeDays: nat, usableDays: nat, amount, known := [], 0, 0, 0, false;
    SumZero(dates[..0], AmountAt(items));
    for i := 0 to |dates|
      invariant Tally(rates, completeDays, usableDays) == TallyOf(items, dates[..i], a.timezone)
      invariant amount as real == SumOver(dates[..i], AmountAt(items))
      invariant known <==> exists j :: 0 <= j < i && BucketOn(items, dates[j]).known
      invariant forall j :: 0 <= j < i && dates[j] == 0 ==> BucketOn(items, dates[j]).flows == []
    {
      var daily := buckets[(key, dates[i])];
      assert daily == BucketOn(items, dates[i]);
      TallyOneMore(items, dates, i, a.timezone);
      SumLast(dates, i, AmountAt(items));
      amount := amount + daily.amount;
      known := known || daily.known;
      FlowsOnDate(items, dates[i]);
      if |daily.flows| > 0 && dates[i] == 0 {
        FlowsUnplaced(items);
        return false, row;
      }
      rates, completeDays, usableDays := CountDate(rates, completeDays, usableDays, daily, dates[i], a.timezone);
    }
    assert dates[..|dates|] == dates;
    GroupTotals(items, dates, amount, known);
    row := MakeRow(key, amount, known, rates, completeDays, usableDays, a.totalDays);
    ok := true;
  }

  /** Counts one date of a group. */
  method CountDate(rates: seq<real>, completeDays: nat, usableDays: nat, daily: DayBucket, date: Date, zone: Timezone)
    returns (moreRates: seq<real>, moreComplete: nat, moreUsable: nat)
    requires |daily.flows| > 0 ==> zone.Zone?
    ensures Tally(moreRates, moreComplete, moreUsable)
            == Count(Tally(rates, completeDays, usableDays), daily, date, zone)
  {
    hide Capital;
    moreRates, moreComplete, moreUsable := rates, completeDays, usableDays;
    if daily.complete { moreComplete := moreComplete + 1; }
    if daily.usable { moreUsable := moreUsable + 1; }
    var capital := CapitalOf(daily, date, zone);
    if daily.complete && capital > 0.0 {
      moreRates := moreRates + [daily.amount as real / capital];
    }
  }

  lemma NoTally(items: seq<ComponentDay>, zone: Timezone)
    ensures TallyOf(items, [], zone) == Tally([], 0, 0)
  {
  }

  lemma TallyOneMore(items: seq<ComponentDay>, dates: seq<Date>, i: nat, zone: Timezone)
    requires i < |dates|
    ensures TallyOf(items, dates[..i + 1], zone)
            == Count(TallyOf(items, dates[..i], zone), BucketOn(items, dates[i]), dates[i], zone)
  {
    assert dates[..i + 1][..i] == dates[..i];
  }

  lemma FlowsUnplaced(items: seq<ComponentDay>)
    requires BucketOn(items, 0).flows != []
    ensures !DatesPlaced(items)
  {
    FlowsOnDate(items, 0);
  }

  lemma SortedDates(items: seq<ComponentDay>)
    ensures var dates := Sort(DatesOf(items), DateLeq());
            && Sorted(dates, DateLeq())
            && multiset(dates) == multiset(DatesOf(items))
            && forall d: Date :: d in dates <==> exists i :: 0 <= i < |items| && items[i].date == d
  {
    hide Sort, DatesOf;
    DateOrder();
    SortIsCorrect(DatesOf(items), DateLeq());
    DatesAreDistinct(items);
    var dates := Sort(DatesOf(items), DateLeq());
    forall d: Date ensures d in dates <==> d in DatesOf(items) {
      assert d in multiset(dates) <==> d in multiset(DatesOf(items));
    }
  }

  /** Totals by sorted date are totals by item. */
  lemma GroupTotals(items: seq<ComponentDay>, dates: seq<Date>, amount: int, known: bool)
    requires dates == Sort(DatesOf(items), DateLeq())
    requires amount as real == SumOver(dates, AmountAt(items))
    requires known <==> exists j :: 0 <= j < |dates| && BucketOn(items, dates[j]).known
    requires forall j :: 0 <= j < |dates| && dates[j] == 0 ==> BucketOn(items, dates[j]).flows == []
    ensures amount == ReturnTotal(items) && (known <==> AmountKnown(items))
    ensures DatesPlaced(items)
  {
    hide BucketOn, Sort, DatesOf, ReturnTotal, HasFlow, SumOver;
    SortedDates(items);
    AmountsByDate(items);
    SumPermutation(dates, DatesOf(items), AmountAt(items));
    if AmountKnown(items) {
      var i :| 0 <= i < |items| && items[i].returnAmount.Some?;
      KnownByDate(items, items[i].date);
      assert items[i].date in dates;
    }
    if known {
      var j :| 0 <= j < |dates| && BucketOn(items, dates[j]).known;
      KnownByDate(items, dates[j]);
    }
    forall i | 0 <= i < |items| && HasFlow(items[i]) ensures items[i].date != 0 {
      FlowsOnDate(items, items[i].date);
      assert items[i].date in dates;
    }
  }

  ghost predicate AnyFlow(days: seq<ComponentDay>) {
    exists day :: day in days && HasFlow(day)
  }

  /** The rows of `keys` are the rows of their groups. */
  ghost predicate AreRows(rows: seq<Row>, keys: seq<string>, days: seq<ComponentDay>, grouping: GroupBy, a: Analysis) {
    |rows| == |keys| && forall i :: 0 <= i < |rows| ==> rows[i] == GroupRow(Items(days, grouping, keys[i]), keys[i], a)
  }

  lemma {:induction false} ItemsAreDays(days: seq<ComponentDay>, grouping: GroupBy, k: string, day: ComponentDay)
    ensures day in Items(days, grouping, k) <==> day in days && GroupKey(day.component, grouping) == k
  {
    if days != [] {
      var n := |days| - 1;
      ItemsAreDays(days[..n], grouping, k, day);
      assert days == days[..n] + [days[n]];
    }
  }

  lemma PlacedByGroup(days: seq<ComponentDay>, grouping: GroupBy, keys: seq<string>)
    requires IsSortedListOf(keys, KeysOf(days, grouping))
    ensures (forall i :: 0 <= i < |keys| ==> DatesPlaced(Items(days, grouping, keys[i])))
       <==> !exists day :: day in days && HasFlow(day) && day.date == 0
  {
    hide HasFlow, Items, GroupKey, Sorted;
    if day :| day in days && HasFlow(day) && day.date == 0 {
      var k := GroupKey(day.component, grouping);
      ItemsAreDays(days, grouping, k, day);
      assert k in keys;
      var i :| 0 <= i < |keys| && keys[i] == k;
      var j :| 0 <= j < |Items(days, grouping, k)| && Items(days, grouping, k)[j] == day;
      assert !DatesPlaced(Items(days, grouping, keys[i]));
    } else {
      forall i | 0 <= i < |keys| ensures DatesPlaced(Items(days, grouping, keys[i])) {
        var items := Items(days, grouping, keys[i]);
        forall j | 0 <= j < |items| && HasFlow(items[j]) ensures items[j].date != 0 {
          ItemsAreDays(days, grouping, keys[i], items[j]);
        }
      }
    }
  }

  lemma GroupFlows(days: seq<ComponentDay>, grouping: GroupBy, k: string)
    ensures (exists i :: 0 <= i < |Items(days, grouping, k)| && HasFlow(Items(days, grouping, k)[i])) ==> AnyFlow(days)
  {
    hide HasFlow, Items, GroupKey;
    var items := Items(days, grouping, k);
    if i :| 0 <= i < |items| && HasFlow(items[i]) {
      ItemsAreDays(days, grouping, k, items[i]);
    }
  }

  lemma AlreadySorted(dates: seq<Date>)
    requires Sorted(dates, DateLeq())
    ensures Sort(dates, DateLeq()) == dates
  {
    DateOrder();
    SortIsCorrect(dates, DateLeq());
    SortIsUnique(Sort(dates, DateLeq()), dates, DateLeq());
  }

  method RowsOfBuckets(a: Analysis, grouping: GroupBy, ghost days: seq<ComponentDay>,
                       buckets: map<(string, Date), DayBucket>,
                       datesByGroup: map<string, seq<Date>>, datesOrdered: map<string, bool>)
    returns (r: Result, ghost keys: seq<string>)
    requires CollectedBuckets(days, grouping, buckets) && CollectedDates(days, grouping, datesByGroup, datesOrdered)
    requires AnyFlow(days) ==> a.timezone.Zone?
    ensures IsSortedListOf(keys, KeysOf(days, grouping))
    ensures if exists day :: day in days && HasFlow(day) && day.date == 0 then r == Err(InvalidDate)
            else r.Ok? && AreRows(r.rows, keys, days, grouping, a)
  {
    hide BucketOn, Sort, HasFlow, Items, DatesOf, GroupRow, KeysOf, DatesPlaced, AnyFlow, Sorted;
    var sorted := SortedList(datesByGroup.Keys);
    keys := sorted;
    PlacedByGroup(days, grouping, keys);
    var rows: seq<Row> := [];
    for i := 0 to |sorted|
      invariant AreRows(rows, keys[..i], days, grouping, a)
      invariant forall j :: 0 <= j < i ==> DatesPlaced(Items(days, grouping, keys[j]))
    {
      var key := sorted[i];
      assert key in sorted;
      ghost var items := Items(days, grouping, key);
      var dates := datesByGroup[key];
      if !datesOrdered[key] {
        dates := Sort(dates, DateLeq());
      } else {
        AlreadySorted(dates);
      }
      SortedDates(items);
      DatesAreDistinct(items);
      GroupFlows(days, grouping, key);
      var ok, row := GroupRowFromBuckets(a, key, dates, buckets, items);
      if !ok {
        return Err(InvalidDate), keys;
      }
      rows := rows + [row];
    }
    assert keys[..|keys|] == keys;
    r := Ok(rows);
  }

  /** Collects every eligible day into buckets, then folds each group over its sorted dates. */
  method FoldByBucketsAndSort(a: Analysis, grouping: GroupBy) returns (r: Result)
    ensures IsFold(r, a, grouping)
  {
    hide HasFlow, AddDay, FlowsOf, Items, GroupKey, Eligible, EligibleDays, DatesOf, BucketOn, KeysOf, GroupRow, Sorted,
         Distinct, IsFold;
    var buckets: map<(string, Date), DayBucket> := map[];
    var datesByGroup: map<string, seq<Date>> := map[];
    var datesOrdered: map<string, bool> := map[];
    var hasFlows := false;
    ghost var days: seq<ComponentDay> := [];
    NothingCollected(a, grouping);
    for i := 0 to |a.days|
      invariant days == EligibleDays(a.days[..i], a.includeCash)
      invariant forall day :: day in days ==> GroupKey(day.component, grouping) != ""
      invariant hasFlows <==> AnyFlow(days)
      invariant CollectedBuckets(days, grouping, buckets)
      invariant CollectedDates(days, grouping, datesByGroup, datesOrdered)
    {
      var day := a.days[i];
      EligibleOneMore(a.days, i, a.includeCash);
      if Eligible(day.component, a.includeCash) {
        var key := GroupKey(day.component, grouping);
        if key == "" {
          RejectsKey(a, i, grouping);
          return Err(UnsupportedGroup);
        }
        var at := (key, day.date);
        ghost var datesByGroup', datesOrdered' := datesByGroup, datesOrdered;
        if at !in buckets {
          var dates := if key in datesByGroup then datesByGroup[key] else [];
          if |dates| == 0 {
            datesOrdered := datesOrdered[key := true];
          } else if datesOrdered[key] && dates[|dates| - 1] > day.date {
            datesOrdered := datesOrdered[key := false];
          }
          datesByGroup := datesByGroup[key := dates + [day.date]];
        }
        KnownAt(days, grouping, key, day.date, buckets, datesByGroup', datesOrdered');
        CollectDates(days, grouping, day, datesByGroup', datesOrdered', datesByGroup, datesOrdered);
        CollectBucket(days, grouping, day, buckets);
        var bucket, any := AddComponentDay(if at in buckets then buckets[at] else EMPTY, day);
        hasFlows := hasFlows || any;
        buckets := buckets[at := bucket];
        days := days + [day];
      }
    }
    assert a.days[..|a.days|] == a.days;
    if hasFlows && a.timezone.Missing? {
      r := Err(TimezoneRequired);
      FoldsTo(r, a, grouping, days, []);
      return;
    }
    if hasFlows && a.timezone.Unknown? {
      r := Err(UnknownTimezone);
      FoldsTo(r, a, grouping, days, []);
      return;
    }
    ghost var keys;
    r, keys := RowsOfBuckets(a, grouping, days, buckets, datesByGroup, datesOrdered);
    FoldsTo(r, a, grouping, days, keys);
  }

  lemma NothingCollected(a: Analysis, grouping: GroupBy)
    ensures EligibleDays(a.days[..0], a.includeCash) == []
    ensures !AnyFlow([])
    ensures CollectedBuckets([], grouping, map[]) && CollectedDates([], grouping, map[], map[])
  {
  }

  lemma RejectsKey(a: Analysis, i: nat, grouping: GroupBy)
    requires i < |a.days| && Eligible(a.days[i].component, a.includeCash)
             && GroupKey(a.days[i].component, grouping) == ""
    ensures IsFold(Err(UnsupportedGroup), a, grouping)
  {
    hide Eligible, GroupKey;
    EligibleOneMore(a.days, i, a.includeCash);
    EligiblePrefix(a.days, i + 1, a.includeCash);
    var prefix := EligibleDays(a.days[..i + 1], a.includeCash);
    assert prefix[|prefix| - 1] == a.days[i];
    assert a.days[i] in EligibleDays(a.days, a.includeCash);
  }

  lemma KnownAt(days: seq<ComponentDay>, grouping: GroupBy, key: string, d: Date,
                buckets: map<(string, Date), DayBucket>,
                datesByGroup: map<string, seq<Date>>, datesOrdered: map<string, bool>)
    requires CollectedBuckets(days, grouping, buckets) && CollectedDates(days, grouping, datesByGroup, datesOrdered)
    ensures (key, d) in buckets <==> d in (if key in datesByGroup then datesByGroup[key] else [])
  {
    hide GroupKey, KeysOf, BucketOn;
    ItemsAreEmpty(days, grouping, key);
  }

  /** Assembles the specification from its cases. */
  lemma FoldsTo(r: Result, a: Analysis, grouping: GroupBy, days: seq<ComponentDay>, keys: seq<string>)
    requires days == EligibleDays(a.days, a.includeCash)
    requires forall day :: day in days ==> GroupKey(day.component, grouping) != ""
    requires if AnyFlow(days) && a.timezone.Missing? then r == Err(TimezoneRequired)
             else if AnyFlow(days) && a.timezone.Unknown? then r == Err(UnknownTimezone)
             else if exists day :: day in days && HasFlow(day) && day.date == 0 then r == Err(InvalidDate)
             else r.Ok? && IsSortedListOf(keys, KeysOf(days, grouping)) && AreRows(r.rows, keys, days, grouping, a)
    ensures IsFold(r, a, grouping)
  {
    hide HasFlow, GroupKey, KeysOf, Items, EligibleDays, ReturnTotal, AmountKnown, TallyOf, Sort, DatesOf;
    if r.Ok? {
      var rowKeys := seq(|r.rows|, i requires 0 <= i < |r.rows| => r.rows[i].key);
      assert rowKeys == keys;
    }
  }

  // ----- The chronological fold

  predicate NoFlow(day: ComponentDay) {
    forall i :: 0 <= i < |day.attributed| ==> day.attributed[i].potential.None? && day.attributed[i].dietz.None?
  }

  ghost predicate Chronological(days: seq<ComponentDay>) {
    && (forall i, j :: 0 <= i < j < |days| ==> days[i].date <= days[j].date)
    && (forall day :: day in days ==> day.date > 0 && NoFlow(day))
  }

  /** The test that admits the one-pass fold; component days carry a date. */
  method CanFoldChronologically(a: Analysis) returns (yes: bool)
    requires forall day :: day in a.days ==> day.date > 0
    ensures yes <==> Chronological(EligibleDays(a.days, a.includeCash))
  {
    hide Eligible, EligibleDays, NoFlow;
    var previous: Date := 0;
    ghost var days: seq<ComponentDay> := [];
    NothingCollected(a, ByAccount);
    for i := 0 to |a.days|
      invariant days == EligibleDays(a.days[..i], a.includeCash)
      invariant Chronological(days)
      invariant previous == if days == [] then 0 else days[|days| - 1].date
    {
      var day := a.days[i];
      assert day in a.days;
      EligibleOneMore(a.days, i, a.includeCash);
      EligiblePrefix(a.days, i + 1, a.includeCash);
      if Eligible(day.component, a.includeCash) {
        ghost var all := EligibleDays(a.days, a.includeCash);
        assert days + [day] <= all;
        assert all[|days|] == day && day in all;
        if previous != 0 && day.date < previous {
          assert all[|days| - 1] == days[|days| - 1];
          return false;
        }
        previous := day.date;
        var flows := HasAnyFlow(day);
        if flows {
          return false;
        }
        LaterThanAll(days, day);
        days := days + [day];
      }
    }
    assert a.days[..|a.days|] == a.days;
    yes := true;
  }

  method HasAnyFlow(day: ComponentDay) returns (any: bool)
    ensures any <==> !NoFlow(day)
  {
    for i := 0 to |day.attributed|
      invariant forall j :: 0 <= j < i ==> day.attributed[j].potential.None? && day.attributed[j].dietz.None?
    {
      if day.attributed[i].potential.Some? || day.attributed[i].dietz.Some? {
        return true;
      }
    }
    any := false;
  }

  lemma LaterThanAll(days: seq<ComponentDay>, day: ComponentDay)
    requires Chronological(days) && day.date > 0 && NoFlow(day)
    requires days != [] ==> days[|days| - 1].date <= day.date
    ensures Chronological(days + [day])
  {
    hide NoFlow;
    forall i | 0 <= i < |days| ensures days[i].date <= day.date {
      assert i == |days| - 1 || days[i].date <= days[|days| - 1].date;
    }
  }

  datatype GroupState = GroupState(key: string, returnAmount: int, amountKnown: bool, rates: seq<real>,
                                   currentDate: Date, currentAmount: int, currentBeginning: int, currentLegacy: int,
                                   currentComplete: bool, currentUsable: bool, completeDays: nat, usableDays: nat)

  /** The dates before the open one. */
  function Past(dates: seq<Date>, open: Date): seq<Date> {
    if dates != [] && dates[|dates| - 1] == open then dates[..|dates| - 1] else dates
  }

  /** The dates of a group ascend and none comes after the open date. */
  ghost predicate UpTo(items: seq<ComponentDay>, open: Date) {
    && (forall i, j :: 0 <= i < j < |items| ==> items[i].date <= items[j].date)
    && (forall i :: 0 <= i < |items| ==> 0 < items[i].date <= open && NoFlow(items[i]))
  }

  /** A running group state holds the totals of its items, the tally of the dates before the
      open one and, when it has items on the open date, their bucket. */
  ghost predicate Tracks(g: GroupState, items: seq<ComponentDay>, open: Date, zone: Timezone) {
    && g.returnAmount == ReturnTotal(items) && (g.amountKnown <==> AmountKnown(items))
    && Tally(g.rates, g.completeDays, g.usableDays) == TallyOf(items, Past(DatesOf(items), open), zone)
    && (if open in DatesOf(items) then
          && g.currentDate == open
          && var b := BucketOn(items, open);
             && g.currentAmount == b.amount && g.currentBeginning == b.beginning && g.currentLegacy == b.legacy
             && g.currentComplete == b.complete && g.currentUsable == b.usable && b.flows == []
        else
          g.currentDate == 0 && g.currentAmount == 0 && g.currentBeginning == 0 && g.currentLegacy == 0
          && !g.currentUsable)
  }

  lemma {:induction false} DatesAscend(items: seq<ComponentDay>, open: Date)
    requires UpTo(items, open)
    ensures forall i, j :: 0 <= i < j < |DatesOf(items)| ==> DatesOf(items)[i] < DatesOf(items)[j]
    ensures forall i :: 0 <= i < |DatesOf(items)| ==> 0 < DatesOf(items)[i] <= open
    ensures items != [] ==> DatesOf(items) != [] && DatesOf(items)[|DatesOf(items)| - 1] == items[|items| - 1].date
  {
    hide NoFlow;
    if items != [] {
      var n := |items| - 1;
      DatesAscend(items[..n], items[n].date);
    }
  }

  lemma {:induction false} TallyIgnoresOther(items: seq<ComponentDay>, day: ComponentDay, dates: seq<Date>,
                                             zone: Timezone)
    requires day.date !in dates
    ensures TallyOf(items + [day], dates, zone) == TallyOf(items, dates, zone)
  {
    hide Capital;
    if dates != [] {
      var n := |dates| - 1;
      TallyIgnoresOther(items, day, dates[..n], zone);
      BucketOfOneMore(items, day, dates[n]);
    }
  }

  lemma {:induction false} NoFlowsCollected(items: seq<ComponentDay>, d: Date)
    requires forall i :: 0 <= i < |items| ==> NoFlow(items[i])
    ensures BucketOn(items, d).flows == []
  {
    if items != [] {
      NoFlowsCollected(items[..|items| - 1], d);
      FlowsOfDay(items[|items| - 1].attributed);
    }
  }

  /** What the open date of a group leaves behind once it is closed. */
  function Closed(g: GroupState): GroupState {
    var capital := g.currentBeginning + g.currentLegacy;
    g.(completeDays := g.completeDays + (if g.currentComplete then 1 else 0),
       usableDays := g.usableDays + (if g.currentUsable then 1 else 0),
       rates := g.rates
           + (if g.currentComplete && capital > 0 then [g.currentAmount as real / capital as real] else []),
       currentAmount := 0, currentBeginning := 0, currentLegacy := 0,
       currentComplete := true, currentUsable := false, currentDate := 0)
  }

  lemma ClosingTracks(g: GroupState, items: seq<ComponentDay>, open: Date, next: Date, zone: Timezone)
    requires UpTo(items, open) && open < next && Tracks(g, items, open, zone) && open in DatesOf(items)
    ensures Tracks(Closed(g), items, next, zone)
  {
    hide ReturnTotal, AmountKnown, BucketOn, DatesOf, NoFlow;
    DatesAscend(items, open);
    var dates := DatesOf(items);
    assert dates[|dates| - 1] == open;
    assert Past(dates, next) == dates;
    assert WeightedFlows([], if zone.Zone? then zone.bounds(open) else (0, 0)) == 0.0;
  }

  lemma IdleTracks(g: GroupState, items: seq<ComponentDay>, open: Date, next: Date, zone: Timezone)
    requires UpTo(items, open) && open < next && Tracks(g, items, open, zone) && open !in DatesOf(items)
    ensures Tracks(g, items, next, zone)
  {
    hide ReturnTotal, AmountKnown, BucketOn, DatesOf, NoFlow, TallyOf;
    DatesAscend(items, open);
  }

  /** Adding a day of the open date to its group. */
  function Extended(g: GroupState, day: ComponentDay): GroupState {
    var started := if g.currentDate != day.date then g.(currentDate := day.date, currentComplete := true) else g;
    var amount := if day.returnAmount.Some? then day.returnAmount.value else 0;
    started.(currentComplete := started.currentComplete && day.status.OK?,
            currentUsable := started.currentUsable || !day.status.Unavailable?,
            returnAmount := started.returnAmount + amount,
            currentAmount := started.currentAmount + amount,
            amountKnown := started.amountKnown || day.returnAmount.Some?,
            currentLegacy := started.currentLegacy + (if IsLegacy(day) then day.investedCapital.value else 0),
            currentBeginning := started.currentBeginning + (if IsLegacy(day) then 0 else day.beginning.units))
  }

  lemma PastOneMore(items: seq<ComponentDay>, day: ComponentDay)
    requires UpTo(items, day.date) && day.date > 0 && NoFlow(day)
    ensures var past := Past(DatesOf(items), day.date);
            day.date !in past && Past(DatesOf(items + [day]), day.date) == past && day.date in DatesOf(items + [day])
  {
    hide NoFlow, DatesOf;
    DatesAscend(items, day.date);
    BucketOfOneMore(items, day, day.date);
    var dates := DatesOf(items);
    if day.date !in dates {
      assert (dates + [day.date])[..|dates|] == dates;
    }
  }

  lemma UpToOneMore(items: seq<ComponentDay>, day: ComponentDay, open: Date)
    requires UpTo(items, open) && open <= day.date && day.date > 0 && NoFlow(day)
    ensures UpTo(items + [day], day.date)
  {
    hide NoFlow;
  }

  lemma TotalsOneMore(items: seq<ComponentDay>, day: ComponentDay)
    ensures ReturnTotal(items + [day]) == ReturnTotal(items)
            + if day.returnAmount.Some? then day.returnAmount.value else 0
    ensures AmountKnown(items + [day]) <==> AmountKnown(items) || day.returnAmount.Some?
  {
    var all := items + [day];
    assert all[..|items|] == items;
    if i :| 0 <= i < |items| && items[i].returnAmount.Some? { assert all[i].returnAmount.Some?; }
    if day.returnAmount.Some? { assert all[|items|].returnAmount.Some?; }
  }

  lemma ExtendingTracks(g: GroupState, items: seq<ComponentDay>, day: ComponentDay, zone: Timezone)
    requires UpTo(items, day.date) && day.date > 0 && NoFlow(day) && Tracks(g, items, day.date, zone)
    ensures UpTo(items + [day], day.date) && Tracks(Extended(g, day), items + [day], day.date, zone)
  {
    hide DatesOf, BucketOn, TallyOf, NoFlow, ReturnTotal, AmountKnown, Past;
    var open := day.date;
    PastOneMore(items, day);
    UpToOneMore(items, day, open);
    TotalsOneMore(items, day);
    TallyIgnoresOther(items, day, Past(DatesOf(items), open), zone);
    BucketOfOneMore(items, day, open);
    if open !in DatesOf(items) {
      DatesAreDistinct(items);
      NothingOn(items, open);
    }
    forall i | 0 <= i < |items + [day]| ensures NoFlow((items + [day])[i]) {}
    NoFlowsCollected(items + [day], open);
  }

  /** The group states, their index by key, and the groups that have items on the open date. */
  ghost predicate Running(groups: seq<GroupState>, indexes: map<string, nat>, active: seq<nat>, open: Date,
                          days: seq<ComponentDay>, grouping: GroupBy, zone: Timezone) {
    && indexes.Keys == KeysOf(days, grouping)
    && (forall k :: k in indexes ==> indexes[k] < |groups| && groups[indexes[k]].key == k)
    && (forall i :: 0 <= i < |groups| ==> groups[i].key in indexes && indexes[groups[i].key] == i)
    && (forall i :: 0 <= i < |groups| ==> Tracks(groups[i], Items(days, grouping, groups[i].key), open, zone))
    && IsActive(groups, active, open)
  }

  ghost predicate IsActive(groups: seq<GroupState>, active: seq<nat>, open: Date) {
    Distinct(active) && forall i: nat :: i in active <==> i < |groups| && groups[i].currentDate == open
  }

  lemma {:induction false} ItemsUpTo(days: seq<ComponentDay>, grouping: GroupBy, k: string, open: Date)
    requires UpTo(days, open)
    ensures UpTo(Items(days, grouping, k), open)
  {
    hide NoFlow, GroupKey;
    if days != [] {
      var n := |days| - 1;
      ItemsUpTo(days[..n], grouping, k, days[n].date);
    }
  }

  /** Closes the open date of every active group. */
  method FinalizeDate(groups: seq<GroupState>, active: seq<nat>, ghost open: Date) returns (closed: seq<GroupState>)
    requires IsActive(groups, active, open)
    ensures |closed| == |groups|
    ensures forall i ::
              0 <= i < |groups| ==> closed[i] == if groups[i].currentDate == open then Closed(groups[i]) else groups[i]
  {
    closed := groups;
    for n := 0 to |active|
      invariant |closed| == |groups|
      invariant forall i :: 0 <= i < |groups| ==> closed[i] == if i in active[..n] then Closed(groups[i]) else groups[i]
    {
      var index := active[n];
      assert index in active && index !in active[..n];
      var group := closed[index];
      if group.currentComplete {
        group := group.(completeDays := group.completeDays + 1);
      }
      if group.currentUsable {
        group := group.(usableDays := group.usableDays + 1);
      }
      var capital := group.currentBeginning + group.currentLegacy;
      if group.currentComplete && capital > 0 {
        group := group.(rates := group.rates + [group.currentAmount as real / capital as real]);
      }
      group := group.(currentAmount := 0, currentBeginning := 0, currentLegacy := 0,
                      currentComplete := true, currentUsable := false, currentDate := 0);
      closed := closed[index := group];
      assert group == Closed(groups[index]);
      assert active[..n + 1] == active[..n] + [index];
    }
    assert active[..|active|] == active;
  }

  lemma FinalizedRunning(groups: seq<GroupState>, closed: seq<GroupState>, indexes: map<string, nat>, active: seq<nat>,
                         open: Date, next: Date,
                         days: seq<ComponentDay>, grouping: GroupBy, zone: Timezone)
    requires Running(groups, indexes, active, open, days, grouping, zone) && UpTo(days, open) && 0 < open < next
    requires |closed| == |groups|
    requires forall i ::
               0 <= i < |groups| ==> closed[i] == if groups[i].currentDate == open then Closed(groups[i]) else groups[i]
    ensures Running(closed, indexes, [], next, days, grouping, zone)
  {
    hide Items, GroupKey, KeysOf, DatesOf, BucketOn, TallyOf, ReturnTotal, AmountKnown, UpTo, Past;
    forall i | 0 <= i < |groups|
      ensures closed[i].key == groups[i].key && closed[i].currentDate != next
      ensures Tracks(closed[i], Items(days, grouping, groups[i].key), next, zone)
    {
      var items := Items(days, grouping, groups[i].key);
      ItemsUpTo(days, grouping, groups[i].key, open);
      if groups[i].currentDate == open {
        ClosingTracks(groups[i], items, open, next, zone);
      } else {
        IdleTracks(groups[i], items, open, next, zone);
      }
    }
  }

  function NewGroup(key: string): GroupState {
    GroupState(key, 0, false, [], 0, 0, 0, 0, false, false, 0, 0)
  }

  lemma NewGroupTracks(key: string, open: Date, zone: Timezone)
    ensures Tracks(NewGroup(key), [], open, zone)
  {
  }

  /** One turn of the loop on a day of the open date. */
  lemma RunningOneMore(groups: seq<GroupState>, indexes: map<string, nat>, active: seq<nat>, day: ComponentDay,
                       days: seq<ComponentDay>, grouping: GroupBy, zone: Timezone,
                       index: nat, groups': seq<GroupState>, indexes': map<string, nat>, active': seq<nat>)
    requires Running(groups, indexes, active, day.date, days, grouping, zone)
    requires UpTo(days, day.date) && day.date > 0 && NoFlow(day)
    requires var key := GroupKey(day.component, grouping);
             var isNew := key !in indexes;
             var group := if isNew then NewGroup(key) else groups[indexes[key]];
             && index == (if isNew then |groups| else indexes[key])
             && indexes' == indexes[key := index]
             && groups' == (if isNew then groups + [NewGroup(key)] else groups)[index := Extended(group, day)]
             && active' == if group.currentDate != day.date then active + [index] else active
    ensures Running(groups', indexes', active', day.date, days + [day], grouping, zone)
  {
    hide Items, GroupKey, KeysOf, DatesOf, BucketOn, TallyOf, ReturnTotal, AmountKnown, UpTo, Past, Tracks, NoFlow,
         Extended, IsActive;
    var key := GroupKey(day.component, grouping);
    KeysOfOneMore(days, grouping, day);
    ItemsAreEmpty(days, grouping, key);
    NewGroupTracks(key, day.date, zone);
    ItemsUpTo(days, grouping, key, day.date);
    var group := if key in indexes then groups[indexes[key]] else NewGroup(key);
    ExtendingTracks(group, Items(days, grouping, key), day, zone);
    ExtendedKeeps(group, day);
    ActiveOneMore(groups, active, day.date, index, group, Extended(group, day), groups', active');
    forall i | 0 <= i < |groups'|
      ensures Tracks(groups'[i], Items(days + [day], grouping, groups'[i].key), day.date, zone)
    {
      ItemsOfOneMore(days, grouping, day, groups'[i].key);
      if i != index {
        assert Items(days, grouping, groups[i].key) + [] == Items(days, grouping, groups[i].key);
      }
    }
  }

  lemma ExtendedKeeps(g: GroupState, day: ComponentDay)
    ensures Extended(g, day).key == g.key && Extended(g, day).currentDate == day.date
  {
  }

  lemma ActiveOneMore(groups: seq<GroupState>, active: seq<nat>, open: Date, index: nat, group: GroupState,
                      extended: GroupState,
                      groups': seq<GroupState>, active': seq<nat>)
    requires IsActive(groups, active, open) && open > 0 && index <= |groups| && extended.currentDate == open
    requires group.currentDate == if index < |groups| then groups[index].currentDate else 0
    requires groups' == if index < |groups| then groups[index := extended] else groups + [extended]
    requires active' == if group.currentDate != open then active + [index] else active
    ensures IsActive(groups', active', open)
  {
    if group.currentDate != open {
      assert index !in active;
    }
    forall i: nat ensures i in active' <==> i < |groups'| && groups'[i].currentDate == open {
      assert i in active <==> i < |groups| && groups[i].currentDate == open;
    }
  }

  /** Opens the date of the next day, closing the one before it. */
  method OpenDate(groups: seq<GroupState>, ghost indexes: map<string, nat>, active: seq<nat>, currentDate: Date,
                  date: Date,
                  ghost days: seq<ComponentDay>, grouping: GroupBy, ghost zone: Timezone)
    returns (groups': seq<GroupState>, active': seq<nat>)
    requires Running(groups, indexes, active, currentDate, days, grouping, zone)
    requires UpTo(days, currentDate) && currentDate <= date
    requires currentDate == 0 ==> days == [] && groups == [] && indexes == map[] && active == []
    ensures Running(groups', indexes, active', date, days, grouping, zone)
  {
    groups', active' := groups, active;
    if currentDate != 0 && date != currentDate {
      groups' := FinalizeDate(groups, active, currentDate);
      active' := [];
      FinalizedRunning(groups, groups', indexes, active, currentDate, date, days, grouping, zone);
    } else if currentDate == 0 {
      NothingRunning(date, grouping, zone);
    }
  }

  /** Folds the days in one pass, closing each date when the next one opens. */
  method FoldChronologically(a: Analysis, grouping: GroupBy) returns (r: Result)
    requires Chronological(EligibleDays(a.days, a.includeCash))
    ensures IsFold(r, a, grouping)
  {
    hide Eligible, EligibleDays, GroupKey, KeysOf, Items, Tracks, NoFlow, IsFold, IsActive, UpTo, Chronological,
         Extended;
    var groups: seq<GroupState> := [];
    var indexes: map<string, nat> := map[];
    var active: seq<nat> := [];
    var currentDate: Date := 0;
    ghost var days: seq<ComponentDay> := [];
    NothingRunning(0, grouping, a.timezone);
    assert EligibleDays(a.days[..0], a.includeCash) == [] by { NothingCollected(a, grouping); }
    for i := 0 to |a.days|
      invariant days == EligibleDays(a.days[..i], a.includeCash)
      invariant forall day :: day in days ==> GroupKey(day.component, grouping) != ""
      invariant UpTo(days, currentDate)
      invariant currentDate == 0 ==> days == [] && groups == [] && indexes == map[] && active == []
      invariant Running(groups, indexes, active, currentDate, days, grouping, a.timezone)
      invariant currentDate == if days == [] then 0 else days[|days| - 1].date
    {
      var day := a.days[i];
      EligibleOneMore(a.days, i, a.includeCash);
      if Eligible(day.component, a.includeCash) {
        NextInOrder(a, i, days, day);
        groups, active := OpenDate(groups, indexes, active, currentDate, day.date, days, grouping, a.timezone);
        UpToLater(days, currentDate, day.date);
        currentDate := day.date;
        var key := GroupKey(day.component, grouping);
        if key == "" {
          RejectsKey(a, i, grouping);
          return Err(UnsupportedGroup);
        }
        ghost var groups', indexes', active' := groups, indexes, active;
        groups, indexes, active := PlaceDay(groups, indexes, active, day, key);
        RunningOneMore(groups', indexes', active', day, days, grouping, a.timezone,
                       if key in indexes' then indexes'[key] else |groups'|, groups, indexes, active);
        UpToOneMore(days, day, currentDate);
        days := days + [day];
      }
    }
    assert a.days[..|a.days|] == a.days;
    if currentDate != 0 {
      ghost var before := groups;
      groups := FinalizeDate(groups, active, currentDate);
      FinalizedRunning(before, groups, indexes, active, currentDate, currentDate + 1, days, grouping, a.timezone);
    } else {
      NothingRunning(1, grouping, a.timezone);
    }
    r := RowsOfGroups(a, grouping, groups, indexes, days, currentDate);
  }

  /** Adds a day to its group, creating and activating the group as needed. */
  method PlaceDay(groups: seq<GroupState>, indexes: map<string, nat>, active: seq<nat>, day: ComponentDay, key: string)
    returns (groups': seq<GroupState>, indexes': map<string, nat>, active': seq<nat>)
    requires forall k :: k in indexes ==> indexes[k] < |groups|
    ensures var isNew := key !in indexes;
            var index := if isNew then |groups| else indexes[key];
            var group := if isNew then NewGroup(key) else groups[index];
            && indexes' == indexes[key := index]
            && groups' == (if isNew then groups + [NewGroup(key)] else groups)[index := Extended(group, day)]
            && active' == if group.currentDate != day.date then active + [index] else active
  {
    groups', indexes', active' := groups, indexes, active;
    var index := |groups|;
    if key in indexes {
      index := indexes[key];
    } else {
      groups' := groups' + [GroupState(key, 0, false, [], 0, 0, 0, 0, false, false, 0, 0)];
    }
    indexes' := indexes'[key := index];
    var group := groups'[index];
    if group.currentDate != day.date {
      group := group.(currentDate := day.date, currentComplete := true);
      active' := active' + [index];
    }
    if !day.status.OK? {
      group := group.(currentComplete := false);
    }
    group := group.(currentUsable := group.currentUsable || !day.status.Unavailable?);
    if day.returnAmount.Some? {
      var amount := day.returnAmount.value;
      group := group.(returnAmount := group.returnAmount + amount, currentAmount := group.currentAmount + amount,
                      amountKnown := true);
    }
    if |day.attributed| == 0 && day.investedCapital.Some? {
      group := group.(currentLegacy := group.currentLegacy + day.investedCapital.value);
    } else {
      group := group.(currentBeginning := group.currentBeginning + day.beginning.units);
    }
    groups' := groups'[index := group];
  }

  lemma NothingRunning(open: Date, grouping: GroupBy, zone: Timezone)
    ensures UpTo([], open) && Running([], map[], [], open, [], grouping, zone)
  {
  }

  lemma UpToLater(days: seq<ComponentDay>, open: Date, next: Date)
    requires UpTo(days, open) && open <= next
    ensures UpTo(days, next)
  {
    hide NoFlow;
  }

  lemma NextInOrder(a: Analysis, i: nat, days: seq<ComponentDay>, day: ComponentDay)
    requires Chronological(EligibleDays(a.days, a.includeCash))
    requires i < |a.days| && day == a.days[i] && Eligible(day.component, a.includeCash)
    requires days == EligibleDays(a.days[..i], a.includeCash)
    ensures day.date > 0 && NoFlow(day) && (days != [] ==> days[|days| - 1].date <= day.date)
  {
    hide NoFlow, Eligible, EligibleDays;
    var all := EligibleDays(a.days, a.includeCash);
    EligibleOneMore(a.days, i, a.includeCash);
    EligiblePrefix(a.days, i + 1, a.includeCash);
    assert days + [day] <= all;
    assert all[|days|] == day && day in all;
    if days != [] { assert all[|days| - 1] == days[|days| - 1]; }
  }

  method RowsOfGroups(a: Analysis, grouping: GroupBy, groups: seq<GroupState>,
                      indexes: map<string, nat>, ghost days: seq<ComponentDay>, ghost last: Date)
    returns (r: Result)
    requires days == EligibleDays(a.days, a.includeCash) && UpTo(days, last)
    requires forall day :: day in days ==> GroupKey(day.component, grouping) != ""
    requires Running(groups, indexes, [], last + 1, days, grouping, a.timezone)
    ensures IsFold(r, a, grouping)
  {
    hide Eligible, EligibleDays, GroupKey, KeysOf, Items, Tracks, NoFlow, IsFold, IsActive, GroupRow, Sorted, UpTo;
    var sorted := SortedList(indexes.Keys);
    var rows: seq<Row> := [];
    for i := 0 to |sorted|
      invariant AreRows(rows, sorted[..i], days, grouping, a)
    {
      assert sorted[i] in sorted;
      var group := groups[indexes[sorted[i]]];
      var row := MakeRow(group.key, group.returnAmount, group.amountKnown, group.rates, group.completeDays,
                         group.usableDays, a.totalDays);
      ItemsUpTo(days, grouping, group.key, last);
      TrackedRow(a, group, Items(days, grouping, group.key), last, row);
      rows := rows + [row];
    }
    assert sorted[..|sorted|] == sorted;
    r := Ok(rows);
    NoFlowAtAll(days, last);
    FoldsTo(r, a, grouping, days, sorted);
  }

  lemma NoFlowAtAll(days: seq<ComponentDay>, last: Date)
    requires UpTo(days, last)
    ensures forall day :: day in days ==> !HasFlow(day)
  {
  }

  /** A closed group state gives the row of its group. */
  lemma TrackedRow(a: Analysis, g: GroupState, items: seq<ComponentDay>, last: Date, row: Row)
    requires UpTo(items, last) && Tracks(g, items, last + 1, a.timezone)
    requires row == RowOf(g.key, g.returnAmount, g.amountKnown, Tally(g.rates, g.completeDays, g.usableDays),
                          a.totalDays)
    ensures row == GroupRow(items, g.key, a)
  {
    hide NoFlow, DatesOf, Sort, TallyOf, BucketOn, ReturnTotal, AmountKnown;
    DatesAscend(items, last);
    assert Past(DatesOf(items), last + 1) == DatesOf(items);
    AlreadySorted(DatesOf(items));
  }

  /** The published fold: the one-pass form where it applies. It is the general fold always. */
  method FoldReturnGroups(a: Analysis, grouping: GroupBy) returns (r: Result)
    requires forall day :: day in a.days ==> day.date > 0
    ensures IsFold(r, a, grouping)
  {
    var chronological := CanFoldChronologically(a);
    if chronological {
      r := FoldChronologically(a, grouping);
    } else {
      r := FoldByBucketsAndSort(a, grouping);
    }
  }

  // ----- Grouping splits the whole

  /** A quantity of a group that its days add up, one by one. */
  ghost predicate Additive(f: seq<ComponentDay> -> real, part: ComponentDay -> real) {
    f([]) == 0.0 && forall items, day :: f(items + [day]) == f(items) + part(day)
  }

  lemma {:induction false} GroupsSplit(days: seq<ComponentDay>, grouping: GroupBy, keys: seq<string>,
                                       f: seq<ComponentDay> -> real, part: ComponentDay -> real)
    requires Additive(f, part) && Distinct(keys)
    requires forall day :: day in days ==> GroupKey(day.component, grouping) in keys
    ensures SumOver(keys, k => f(Items(days, grouping, k))) == f(days)
  {
    hide GroupKey;
    var g := k => f(Items(days, grouping, k));
    if days == [] {
      assert forall k :: Items(days, grouping, k) == [];
      SumZero(keys, g);
    } else {
      var n := |days| - 1;
      var front, day := days[..n], days[n];
      assert days == front + [day];
      var before := k => f(Items(front, grouping, k));
      GroupsSplit(front, grouping, keys, f, part);
      var key := GroupKey(day.component, grouping);
      forall k ensures g(k) == before(k) + if k == key then part(day) else 0.0 {
        ItemsOfOneMore(front, grouping, day, k);
        assert Items(front, grouping, k) + [] == Items(front, grouping, k);
      }
      SumChange(keys, before, g, key);
    }
  }

  function RealReturn(): seq<ComponentDay> -> real {
    (items: seq<ComponentDay>) => ReturnTotal(items) as real
  }

  function PartReturn(): ComponentDay -> real {
    (day: ComponentDay) => if day.returnAmount.Some? then day.returnAmount.value as real else 0.0
  }

  /** Whatever the grouping, the rows split the whole return amount exactly. */
  lemma RowsSplitReturn(r: Result, a: Analysis, grouping: GroupBy)
    requires IsFold(r, a, grouping) && r.Ok?
    ensures SumOver(r.rows, (row: Row) => row.returnAmount as real)
            == ReturnTotal(EligibleDays(a.days, a.includeCash)) as real
  {
    hide GroupKey, Items, EligibleDays, ReturnTotal, HasFlow, AmountKnown, TallyOf, Sort, DatesOf, KeysOf, Sorted;
    var days := EligibleDays(a.days, a.includeCash);
    var keys := seq(|r.rows|, i requires 0 <= i < |r.rows| => r.rows[i].key);
    forall items, day ensures ReturnTotal(items + [day]) as real == ReturnTotal(items) as real + PartReturn()(day) {
      TotalsOneMore(items, day);
    }
    NoReturnOfNothing();
    forall day | day in days ensures GroupKey(day.component, grouping) in keys {
      KeyIsListed(days, grouping, day);
    }
    var ofGroup := k => RealReturn()(Items(days, grouping, k));
    GroupsSplit(days, grouping, keys, RealReturn(), PartReturn());
    SumPairs(r.rows, keys, (row: Row) => row.returnAmount as real, ofGroup);
  }

  lemma NoReturnOfNothing()
    ensures ReturnTotal([]) == 0
  {
  }

  lemma KeyIsListed(days: seq<ComponentDay>, grouping: GroupBy, day: ComponentDay)
    requires day in days
    ensures GroupKey(day.component, grouping) in KeysOf(days, grouping)
  {
  }

  function CapitalOn(date: Date, zone: Timezone): seq<ComponentDay> -> real {
    (items: seq<ComponentDay>) => Capital(BucketOn(items, date), date, zone)
  }

  /** What one component day adds to the Dietz capital of its group on a date. */
  function PartCapital(date: Date, zone: Timezone): ComponentDay -> real {
    (day: ComponentDay) => if day.date == date then Capital(AddDay(EMPTY, day), date, zone) else 0.0
  }

  lemma {:induction false} WeightedConcat(a: seq<CapitalFlow>, b: seq<CapitalFlow>, bounds: (int, int))
    ensures WeightedFlows(a + b, bounds) == WeightedFlows(a, bounds) + WeightedFlows(b, bounds)
  {
    hide DietzFlowWeight;
    if b == [] {
      assert a + b == a;
    } else {
      var n := |b| - 1;
      assert (a + b)[..|a + b| - 1] == a + b[..n];
      WeightedConcat(a, b[..n], bounds);
    }
  }

  lemma CapitalOneMore(items: seq<ComponentDay>, day: ComponentDay, date: Date, zone: Timezone)
    ensures CapitalOn(date, zone)(items + [day]) == CapitalOn(date, zone)(items) + PartCapital(date, zone)(day)
  {
    hide FlowsOf, DietzFlowWeight;
    BucketOfOneMore(items, day, date);
    if zone.Zone? {
      WeightedConcat(BucketOn(items, date).flows, FlowsOf(day.attributed), zone.bounds(date));
      WeightedConcat([], FlowsOf(day.attributed), zone.bounds(date));
    }
  }

  /** On every date the Dietz capital of the groups adds up to the capital of all eligible days. */
  lemma GroupsSplitCapital(days: seq<ComponentDay>, grouping: GroupBy, keys: seq<string>, date: Date, zone: Timezone)
    requires Distinct(keys) && forall day :: day in days ==> GroupKey(day.component, grouping) in keys
    ensures SumOver(keys, k => CapitalOn(date, zone)(Items(days, grouping, k))) == CapitalOn(date, zone)(days)
  {
    hide GroupKey, Items, FlowsOf, DietzFlowWeight;
    forall items, day
      ensures CapitalOn(date, zone)(items + [day]) == CapitalOn(date, zone)(items) + PartCapital(date, zone)(day) {
      CapitalOneMore(items, day, date, zone);
    }
    GroupsSplit(days, grouping, keys, CapitalOn(date, zone), PartCapital(date, zone));
  }
}
