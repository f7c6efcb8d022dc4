/** The run-time check that a period's drivers explain its change in net worth, and the
    attribution link that is published once it accepts. Amounts are in units of 0.0001. */
module AttributionProof {
  import opened AnalysisModel
  import opened MoneyRounding
  import opened Sorting
  import opened Sums
  import opened Waterfall

  /** A daily valuation: the exact signed value of each component it holds, or None where the
      item has no usable value. */
  datatype Snapshot = Snapshot(date: Date, items: map<Component, Option<real>>)

  /** A classified effect: its converted amount counts when `known`. */
  datatype Leg = Leg(date: Date, component: Component, known: bool, bucketed: bool, neutral: bool, amount: real)

  datatype Comparison = Comparison(left: Option<real>, right: Option<real>, change: Option<real>)

  datatype Outcome =
    | Proved(beginning: int, ending: int, exactDelta: real)
    | EndpointMismatch
    | DriverMismatch

  datatype Input = Input(components: seq<Component>, snapshots: seq<Snapshot>, legs: seq<Leg>,
                         days: seq<ComponentDay>, from: Date, to: Date, currency: string, comparison: Comparison)

  // ----- What the check reads

  /** The items of the last snapshot with this date. */
  function ItemsAt(snapshots: seq<Snapshot>, date: Date): Option<map<Component, Option<real>>> {
    if snapshots == [] then None
    else if snapshots[|snapshots| - 1].date == date then Some(snapshots[|snapshots| - 1].items)
    else ItemsAt(snapshots[..|snapshots| - 1], date)
  }

  /** The value a boundary records for a component; outside the components it records none. */
  function ValueIn(components: seq<Component>, items: map<Component, Option<real>>): Component -> real {
    c => if c in components && c in items && items[c].Some? then items[c].value else 0.0
  }

  function RoundedIn(components: seq<Component>, items: map<Component, Option<real>>): Component -> real {
    c => HalfEven(ValueIn(components, items)(c)) as real
  }

  predicate Usable(components: seq<Component>, items: map<Component, Option<real>>) {
    forall c :: c in components && c in items ==> items[c].Some?
  }

  function ValueAt(input: Input, date: Date): Component -> real {
    match ItemsAt(input.snapshots, date)
    case Some(items) => ValueIn(input.components, items)
    case None => ((c: Component) => 0.0)
  }

  function RoundedAt(input: Input, date: Date): Component -> real {
    c => HalfEven(ValueAt(input, date)(c)) as real
  }

  function NetWorthAt(input: Input, date: Date): real {
    SumOver(input.components, ValueAt(input, date))
  }

  function AmountsOf(day: ComponentDay): Bucket -> real {
    b => AmountIn(day, b)
  }

  /** The amounts a day is counted with: the exact ones, or the rounded ones when it has none. */
  function CountedAmounts(day: ComponentDay): map<Bucket, real> {
    if |day.exactBuckets| > 0 then day.exactBuckets
    else map b | b in day.assetBuckets :: day.assetBuckets[b].units as real
  }

  ghost function DayTotal(day: ComponentDay): real {
    ExactSum(CountedAmounts(day))
  }

  lemma DayTotalOver(buckets: seq<Bucket>, day: ComponentDay)
    requires ListsBuckets(buckets)
    ensures SumOver(buckets, AmountsOf(day)) == DayTotal(day)
  {
    ExactSumOver(buckets, CountedAmounts(day));
    SumEqual(buckets, AmountsOf(day), Exact(CountedAmounts(day)));
  }

  ghost function DayTotals(): ComponentDay -> real {
    (day: ComponentDay) => DayTotal(day)
  }

  /** The drivers of one date. */
  ghost function DriverOn(date: Date): ComponentDay -> real {
    (day: ComponentDay) => if day.date == date then DayTotal(day) else 0.0
  }

  /** The neutral legs of one component on one date. */
  function NeutralOn(input: Input, date: Date, c: Component): real {
    SumOver(input.legs, LegAmount(input, date, c))
  }

  function LegAmount(input: Input, date: Date, c: Component): Leg -> real {
    (leg: Leg) => if IsNeutral(input, leg) && leg.date == date && leg.component == c then leg.amount else 0.0
  }

  predicate IsNeutral(input: Input, leg: Leg) {
    input.from <= leg.date <= input.to && leg.known && !leg.bucketed && leg.neutral
  }

  // ----- Acceptance

  predicate Bounded(input: Input, date: Date) {
    date > 0 && ItemsAt(input.snapshots, date - 1).Some? && ItemsAt(input.snapshots, date).Some?
  }

  predicate DayAgrees(input: Input, day: ComponentDay) {
    && Bounded(input, day.date)
    && day.beginning.currency == input.currency && day.ending.currency == input.currency
    && day.beginning.units == HalfEven(ValueAt(input, day.date - 1)(day.component))
    && day.ending.units == HalfEven(ValueAt(input, day.date)(day.component))
  }

  ghost predicate DayReconciles(input: Input, day: ComponentDay)
    requires day.date > 0
  {
    DayTotal(day) + NeutralOn(input, day.date, day.component)
      == ValueAt(input, day.date)(day.component) - ValueAt(input, day.date - 1)(day.component)
  }

  ghost predicate DateReconciles(input: Input, date: Date) {
    && Bounded(input, date)
    && SumOver(input.days, DriverOn(date)) == NetWorthAt(input, date) - NetWorthAt(input, date - 1)
  }

  /** Everything the check establishes before it accepts. */
  ghost predicate Acceptable(input: Input) {
    && (forall i :: 0 <= i < |input.snapshots| ==> Usable(input.components, input.snapshots[i].items))
    && input.from > 0
    && ItemsAt(input.snapshots, input.from - 1).Some? && ItemsAt(input.snapshots, input.to).Some?
    && input.comparison.left == Some(NetWorthAt(input, input.from - 1))
    && input.comparison.right == Some(NetWorthAt(input, input.to))
    && input.comparison.change == Some(NetWorthAt(input, input.to) - NetWorthAt(input, input.from - 1))
    && (forall day :: day in input.days ==> DayAgrees(input, day) && DayReconciles(input, day))
    && (forall date: Date :: input.from <= date <= input.to ==> DateReconciles(input, date))
  }

  datatype Boundary = Boundary(exact: real, projected: int,
                               components: map<Component, int>, exactComponents: map<Component, real>)

  /** A boundary record holds the totals over `read` and the values of those components. */
  ghost predicate IsBoundaryOf(b: Boundary, read: seq<Component>, items: map<Component, Option<real>>) {
    && b.exact == SumOver(read, ValueIn(read, items))
    && b.projected as real == SumOver(read, RoundedIn(read, items))
    && (forall c :: Exact(b.exactComponents)(c) == ValueIn(read, items)(c))
    && (forall c :: Units(b.components)(c) == RoundedIn(read, items)(c))
  }

  lemma ExtendSum(read: seq<Component>, c: Component, f: Component -> real, g: Component -> real)
    requires forall x :: x in read ==> f(x) == g(x)
    ensures SumOver(read + [c], g) == SumOver(read, f) + g(c)
  {
    SumAppend(read, [c], g);
    SumEqual(read, f, g);
    assert SumOver([c], g) == g(c);
  }

  lemma BoundaryStep(b: Boundary, read: seq<Component>, items: map<Component, Option<real>>, c: Component,
                     next: Boundary)
    requires IsBoundaryOf(b, read, items) && c !in read
    requires if c !in items || items[c].None? then next == b
             else next == Boundary(b.exact + items[c].value, b.projected + HalfEven(items[c].value),
                                   b.components[c := HalfEven(items[c].value)], b.exactComponents[c := items[c].value])
    ensures IsBoundaryOf(next, read + [c], items)
  {
    var all := read + [c];
    ExtendSum(read, c, ValueIn(read, items), ValueIn(all, items));
    forall x | x != c ensures ValueIn(all, items)(x) == ValueIn(read, items)(x) {}
    forall x | x != c ensures RoundedIn(all, items)(x) == RoundedIn(read, items)(x) {}
    ExtendSum(read, c, RoundedIn(read, items), RoundedIn(all, items));
    assert ValueIn(read, items)(c) == 0.0;
    if c in items && items[c].Some? {
      assert RoundedIn(all, items)(c) == HalfEven(items[c].value) as real;
    } else {
      assert ValueIn(all, items)(c) == 0.0;
    }
  }

  method ReadBoundary(components: seq<Component>, items: map<Component, Option<real>>) returns (ok: bool, b: Boundary)
    requires Distinct(components)
    ensures ok <==> Usable(components, items)
    ensures ok ==> IsBoundaryOf(b, components, items)
  {
    b := Boundary(0.0, 0, map[], map[]);
    for i := 0 to |components|
      invariant Usable(components[..i], items)
      invariant IsBoundaryOf(b, components[..i], items)
    {
      var c := components[i];
      assert c !in components[..i];
      ghost var before := b;
      if c in items {
        if items[c].None? {
          return false, b;
        }
        var exact := items[c].value;
        var projected := HalfEven(exact);
        b := Boundary(b.exact + exact, b.projected + projected, b.components[c := projected],
                      b.exactComponents[c := exact]);
      }
      BoundaryStep(before, components[..i], items, c, b);
      assert components[..i + 1] == components[..i] + [c];
    }
    assert components[..|components|] == components;
    ok := true;
  }

  /** The boundaries read so far stand for the snapshots read so far. */
  ghost predicate AreBoundaries(boundaries: map<Date, Boundary>, components: seq<Component>, snapshots: seq<Snapshot>) {
    forall date: Date ::
      && (date in boundaries <==> ItemsAt(snapshots, date).Some?)
      && (date in boundaries ==> IsBoundaryOf(boundaries[date], components, ItemsAt(snapshots, date).value))
  }

  method ReadBoundaries(input: Input) returns (ok: bool, boundaries: map<Date, Boundary>)
    requires Distinct(input.components)
    ensures ok <==> forall i :: 0 <= i < |input.snapshots| ==> Usable(input.components, input.snapshots[i].items)
    ensures ok ==> AreBoundaries(boundaries, input.components, input.snapshots)
  {
    boundaries := map[];
    for i := 0 to |input.snapshots|
      invariant forall j :: 0 <= j < i ==> Usable(input.components, input.snapshots[j].items)
      invariant AreBoundaries(boundaries, input.components, input.snapshots[..i])
    {
      var usable, b := ReadBoundary(input.components, input.snapshots[i].items);
      if !usable {
        return false, boundaries;
      }
      assert input.snapshots[..i + 1][..i] == input.snapshots[..i];
      boundaries := boundaries[input.snapshots[i].date := b];
    }
    assert input.snapshots[..|input.snapshots|] == input.snapshots;
    ok := true;
  }

  method ReadNeutralLegs(input: Input) returns (neutral: map<(Date, Component), real>)
    ensures forall date, c :: Exact(neutral)((date, c)) == NeutralOn(input, date, c)
  {
    neutral := map[];
    for i := 0 to |input.legs|
      invariant forall date, c :: Exact(neutral)((date, c)) == SumOver(input.legs[..i], LegAmount(input, date, c))
    {
      var leg := input.legs[i];
      if leg.date < input.from || leg.date > input.to {
      } else if leg.known && !leg.bucketed && leg.neutral {
        neutral := AddTo(neutral, (leg.date, leg.component), leg.amount);
      }
      forall date, c ensures Exact(neutral)((date, c)) == SumOver(input.legs[..i + 1], LegAmount(input, date, c)) {
        SumLast(input.legs, i, LegAmount(input, date, c));
      }
    }
    assert input.legs[..|input.legs|] == input.legs;
  }

  method CheckDay(input: Input, boundaries: map<Date, Boundary>, neutral: map<(Date, Component), real>,
                  day: ComponentDay, componentTotal: real) returns (reason: Option<Outcome>)
    requires AreBoundaries(boundaries, input.components, input.snapshots)
    requires forall date, c :: Exact(neutral)((date, c)) == NeutralOn(input, date, c)
    requires day.date > 0 && componentTotal == DayTotal(day)
    ensures reason.None? <==> DayAgrees(input, day) && DayReconciles(input, day)
    ensures reason.Some? ==> !reason.value.Proved?
  {
    hide HalfEven, DayTotal, SumOver, ItemsAt, NeutralOn;
    if day.date - 1 !in boundaries || day.date !in boundaries {
      return Some(EndpointMismatch);
    }
    var previous, current := boundaries[day.date - 1], boundaries[day.date];
    BoundaryLookups(input, boundaries, day.date - 1, day.component);
    BoundaryLookups(input, boundaries, day.date, day.component);
    if day.beginning.currency != input.currency || day.ending.currency != input.currency
      || day.beginning.units != Lookup(previous.components, day.component)
      || day.ending.units != Lookup(current.components, day.component)
    {
      return Some(EndpointMismatch);
    }
    var legs := if (day.date, day.component) in neutral then neutral[(day.date, day.component)] else 0.0;
    assert legs == Exact(neutral)((day.date, day.component));
    if componentTotal + legs
        != LookupExact(current.exactComponents, day.component) - LookupExact(previous.exactComponents, day.component) {
      return Some(DriverMismatch);
    }
    reason := None;
  }

  method ProveDays(input: Input, boundaries: map<Date, Boundary>, neutral: map<(Date, Component), real>)
    returns (reason: Option<Outcome>, exactDrivers: map<Date, real>)
    requires AreBoundaries(boundaries, input.components, input.snapshots)
    requires forall date, c :: Exact(neutral)((date, c)) == NeutralOn(input, date, c)
    requires forall day :: day in input.days ==> day.date > 0
    ensures reason.None? <==> forall day :: day in input.days ==> DayAgrees(input, day) && DayReconciles(input, day)
    ensures reason.None? ==> forall date :: Exact(exactDrivers)(date) == SumOver(input.days, DriverOn(date))
    ensures reason.Some? ==> !reason.value.Proved?
  {
    hide HalfEven, DayTotal, SumOver, ItemsAt, NeutralOn, DayAgrees, DayReconciles;
    exactDrivers := map[];
    forall date { SumZero(input.days[..0], DriverOn(date)); }
    for i := 0 to |input.days|
      invariant forall j :: 0 <= j < i ==> DayAgrees(input, input.days[j]) && DayReconciles(input, input.days[j])
      invariant forall date :: Exact(exactDrivers)(date) == SumOver(input.days[..i], DriverOn(date))
    {
      var day := input.days[i];
      assert day in input.days;
      var componentTotal := TotalOfDay(day);
      reason := CheckDay(input, boundaries, neutral, day, componentTotal);
      if reason.Some? {
        return;
      }
      ghost var before := exactDrivers;
      exactDrivers := AddTo(exactDrivers, day.date, componentTotal);
      forall date ensures Exact(exactDrivers)(date) == SumOver(input.days[..i + 1], DriverOn(date)) {
        SumLast(input.days, i, DriverOn(date));
        assert Exact(before)(date) == SumOver(input.days[..i], DriverOn(date));
      }
    }
    assert input.days[..|input.days|] == input.days;
    reason := None;
  }

  function Lookup(m: map<Component, int>, c: Component): int {
    if c in m then m[c] else 0
  }

  function LookupExact(m: map<Component, real>, c: Component): real {
    if c in m then m[c] else 0.0
  }

  /** Adds up the waterfall of one day. */
  method TotalOfDay(day: ComponentDay) returns (total: real)
    ensures total == DayTotal(day)
  {
    var buckets := AggregateAssetWaterfall([day]);
    forall b ensures Exact(buckets)(b) == AmountIn(day, b) {
      assert SumOver([day], DayAmount(b)) == DayAmount(b)(day);
    }
    DisplayOrder();
    SumEqual(ORDERED_BUCKETS, Exact(buckets), AmountsOf(day));
    DayTotalOver(ORDERED_BUCKETS, day);
    total := SumOfMap(ORDERED_BUCKETS, buckets);
  }

  method SumOfMap<K(==, !new)>(ghost keys: seq<K>, m: map<K, real>) returns (total: real)
    requires Covers(keys, m)
    ensures total == SumOver(keys, Exact(m))
  {
    var rest := m.Keys;
    total := 0.0;
    ghost var done: map<K, real> := map[];
    SumZero(keys, Exact(done));
    while rest != {}
      invariant rest <= m.Keys && done.Keys == m.Keys - rest
      invariant forall k :: k in done ==> done[k] == m[k]
      invariant total == SumOver(keys, Exact(done))
    {
      var k :| k in rest;
      ghost var before := done;
      total := total + m[k];
      rest := rest - {k};
      done := done[k := m[k]];
      SumChange(keys, Exact(before), Exact(done), k);
    }
    assert done == m;
  }

  lemma BoundaryTotals(input: Input, boundaries: map<Date, Boundary>, date: Date)
    requires AreBoundaries(boundaries, input.components, input.snapshots) && date in boundaries
    ensures boundaries[date].exact == NetWorthAt(input, date)
    ensures boundaries[date].projected as real == SumOver(input.components, RoundedAt(input, date))
  {
    var items := ItemsAt(input.snapshots, date).value;
    SumEqual(input.components, ValueIn(input.components, items), ValueAt(input, date));
    SumEqual(input.components, RoundedIn(input.components, items), RoundedAt(input, date));
  }

  lemma BoundaryLookups(input: Input, boundaries: map<Date, Boundary>, date: Date, c: Component)
    requires AreBoundaries(boundaries, input.components, input.snapshots) && date in boundaries
    ensures Lookup(boundaries[date].components, c) == HalfEven(ValueAt(input, date)(c))
    ensures LookupExact(boundaries[date].exactComponents, c) == ValueAt(input, date)(c)
  {
    var items := ItemsAt(input.snapshots, date).value;
    assert Units(boundaries[date].components)(c) == RoundedIn(input.components, items)(c);
    assert Exact(boundaries[date].exactComponents)(c) == ValueIn(input.components, items)(c);
  }

  /** Every date's exact drivers are the change between its boundaries. */
  method ProveDates(input: Input, boundaries: map<Date, Boundary>, exactDrivers: map<Date, real>) returns (ok: bool)
    requires AreBoundaries(boundaries, input.components, input.snapshots) && input.from > 0
    requires forall date :: Exact(exactDrivers)(date) == SumOver(input.days, DriverOn(date))
    ensures ok <==> forall d: Date :: input.from <= d <= input.to ==> DateReconciles(input, d)
  {
    hide HalfEven, SumOver, ItemsAt, DriverOn, NetWorthAt;
    var date := input.from;
    while date <= input.to
      invariant input.from <= date
      invariant forall d: Date :: input.from <= d < date ==> DateReconciles(input, d)
    {
      if date - 1 !in boundaries || date !in boundaries {
        assert !Bounded(input, date) && !DateReconciles(input, date);
        return false;
      }
      BoundaryTotals(input, boundaries, date - 1);
      BoundaryTotals(input, boundaries, date);
      var driver := if date in exactDrivers then exactDrivers[date] else 0.0;
      assert driver == Exact(exactDrivers)(date);
      if driver != boundaries[date].exact - boundaries[date - 1].exact {
        assert !DateReconciles(input, date);
        return false;
      }
      date := date + 1;
    }
    ok := true;
  }

  /** The certificate checker. */
  method ProveAttributionPrecision(input: Input) returns (r: Outcome)
    requires Distinct(input.components) && input.from > 0
    requires forall day :: day in input.days ==> day.date > 0
    ensures r.Proved? <==> Acceptable(input)
    ensures r.Proved? ==>
      && r.beginning as real == SumOver(input.components, RoundedAt(input, input.from - 1))
      && r.ending as real == SumOver(input.components, RoundedAt(input, input.to))
      && r.exactDelta == NetWorthAt(input, input.to) - NetWorthAt(input, input.from - 1)
  {
    hide HalfEven, DayTotal, SumOver, ItemsAt, NeutralOn, DayAgrees, DayReconciles;
    var usable, boundaries := ReadBoundaries(input);
    if !usable {
      return EndpointMismatch;
    }
    if input.from - 1 !in boundaries || input.to !in boundaries {
      return EndpointMismatch;
    }
    var left, right := boundaries[input.from - 1], boundaries[input.to];
    BoundaryTotals(input, boundaries, input.from - 1);
    BoundaryTotals(input, boundaries, input.to);
    var exactDelta := right.exact - left.exact;
    if input.comparison.left != Some(left.exact) || input.comparison.right != Some(right.exact) {
      return EndpointMismatch;
    }
    if input.comparison.change != Some(exactDelta) {
      return DriverMismatch;
    }
    var neutral := ReadNeutralLegs(input);
    var reason, exactDrivers := ProveDays(input, boundaries, neutral);
    if reason.Some? {
      return reason.value;
    }
    var reconciled := ProveDates(input, boundaries, exactDrivers);
    if !reconciled {
      return DriverMismatch;
    }
    r := Proved(left.projected, right.projected, exactDelta);
  }

  // ----- What acceptance means

  ghost predicate InPeriod(input: Input) {
    input.from <= input.to && forall day :: day in input.days ==> input.from <= day.date <= input.to
  }

  function Dates(from: Date, to: Date): seq<Date> {
    seq(if from <= to then to - from + 1 else 0, (i: nat) => from + i)
  }

  ghost function DriverSums(days: seq<ComponentDay>): Date -> real {
    (date: Date) => SumOver(days, DriverOn(date))
  }

  lemma {:induction false} Telescope(input: Input, last: Date)
    requires Acceptable(input) && input.from <= last <= input.to
    ensures SumOver(Dates(input.from, last), DriverSums(input.days))
            == NetWorthAt(input, last) - NetWorthAt(input, input.from - 1)
    decreases last
  {
    hide NetWorthAt, DriverOn, Bounded, DayAgrees, DayReconciles;
    var f := DriverSums(input.days);
    assert DateReconciles(input, last);
    if input.from == last {
      assert Dates(last, last) == [last];
      assert SumOver([last], f) == f(last);
    } else {
      Telescope(input, last - 1);
      assert Dates(input.from, last) == Dates(input.from, last - 1) + [last];
      SumAppend(Dates(input.from, last - 1), [last], f);
      assert SumOver([last], f) == f(last);
    }
  }

  /** Each day counts on exactly one of the dates. */
  lemma {:induction false} DriversByDate(days: seq<ComponentDay>, from: Date, last: Date)
    requires forall day :: day in days ==> from <= day.date <= last
    ensures SumOver(Dates(from, last), DriverSums(days)) == SumOver(days, DayTotals())
  {
    hide DayTotal;
    var dates := Dates(from, last);
    if days == [] {
      SumZero(dates, DriverSums(days));
    } else {
      var day := days[0];
      var own: Date -> real := (date: Date) => DriverOn(date)(day);
      DriversByDate(days[1..], from, last);
      SumPlus(dates, own, DriverSums(days[1..]), DriverSums(days));
      assert dates[day.date - from] == day.date;
      SumSingle(dates, own, day.date);
    }
  }

  /** Over an accepted period the exact drivers of all days add up to the change in net worth. */
  lemma DriversExplainPeriod(input: Input)
    requires Acceptable(input) && InPeriod(input)
    ensures SumOver(input.days, DayTotals()) == NetWorthAt(input, input.to) - NetWorthAt(input, input.from - 1)
  {
    Telescope(input, input.to);
    DriversByDate(input.days, input.from, input.to);
  }

  function ComponentsOn(days: seq<ComponentDay>, date: Date): seq<Component> {
    if days == [] then []
    else (if days[0].date == date then [days[0].component] else []) + ComponentsOn(days[1..], date)
  }

  lemma {:induction false} SumOverDate(days: seq<ComponentDay>, date: Date, f: Component -> real)
    ensures SumOver(ComponentsOn(days, date), f)
         == SumOver(days, (day: ComponentDay) => if day.date == date then f(day.component) else 0.0)
  {
    if days != [] {
      SumOverDate(days[1..], date, f);
      var first := if days[0].date == date then [days[0].component] else [];
      SumAppend(first, ComponentsOn(days[1..], date), f);
    }
  }

  /** Each component has one day on this date. */
  ghost predicate OneDayEach(input: Input, date: Date) {
    multiset(ComponentsOn(input.days, date)) == multiset(input.components)
  }

  lemma DaysAddUp(input: Input, date: Date, neutral: Component -> real, delta: Component -> real)
    requires date > 0
    requires forall day ::
               day in input.days && day.date == date ==> DayTotal(day) + neutral(day.component) == delta(day.component)
    ensures SumOver(input.days, DriverOn(date))
            + SumOver(input.days, (day: ComponentDay) => if day.date == date then neutral(day.component) else 0.0)
         == SumOver(input.days, (day: ComponentDay) => if day.date == date then delta(day.component) else 0.0)
  {
    hide DayTotal;
    SumPlus(input.days, DriverOn(date),
            (day: ComponentDay) => if day.date == date then neutral(day.component) else 0.0,
            (day: ComponentDay) => if day.date == date then delta(day.component) else 0.0);
  }

  /** In an accepted period the neutral internal legs of every date cancel. */
  lemma NeutralLegsCancel(input: Input, date: Date)
    requires Acceptable(input) && input.from <= date <= input.to && OneDayEach(input, date)
    ensures SumOver(input.components, c => NeutralOn(input, date, c)) == 0.0
  {
    hide DayTotal, NeutralOn, ItemsAt, SumOver, DriverOn, HalfEven, ValueAt;
    var on := ComponentsOn(input.days, date);
    var neutral: Component -> real := c => NeutralOn(input, date, c);
    var delta: Component -> real := c => ValueAt(input, date)(c) - ValueAt(input, date - 1)(c);
    assert DateReconciles(input, date);
    SumPermutation(on, input.components, neutral);
    SumPermutation(on, input.components, delta);
    SumMinus(input.components, ValueAt(input, date), ValueAt(input, date - 1), delta);
    SumOverDate(input.days, date, neutral);
    SumOverDate(input.days, date, delta);
    DaysAddUp(input, date, neutral, delta);
  }

  // ----- The published link

  datatype Link =
    | Compatible(analysisDelta: int, explained: int, residual: int,
                 boundaryAdjustment: real, driverAdjustment: int, precisionAdjustment: real)
    | Incompatible(reason: Outcome)
    | MissingValuationEvidence

  /** The waterfall rows without the unexplained one. */
  function Explained(rows: map<Bucket, int>): Bucket -> real {
    b => if b == Residual then 0.0 else Units(rows)(b)
  }

  /** The published parts add up to the exact change, and the precision adjustment between the
      rounded drivers and that change is at most eleven half units, whatever the portfolio and
      the period; it is at most one half unit when the exact change rounds to the reported one. */
  ghost predicate Explains(input: Input, rows: map<Bucket, int>, link: Link)
    requires link.Compatible? && input.from > 0
  {
    var exactDelta := NetWorthAt(input, input.to) - NetWorthAt(input, input.from - 1);
    && link.explained as real == SumOver(ORDERED_BUCKETS, Explained(rows))
    && link.residual as real == Units(rows)(Residual)
    && link.explained as real + link.residual as real + link.precisionAdjustment == exactDelta
    && link.precisionAdjustment == link.boundaryAdjustment + link.driverAdjustment as real
    && Abs(link.precisionAdjustment) <= HalfUnits(11)
    && (HalfEven(exactDelta) == link.analysisDelta
        ==> Abs(link.precisionAdjustment) <= 0.5 && link.driverAdjustment == 0)
  }

  /** Publishes the drivers of a period once they are proved. `change` is the reported change
      of the period and `beginning` and `ending` its reported endpoints. */
  method ProjectFinancialAttribution(input: Input, beginning: Option<int>, ending: Option<int>, change: Option<int>)
    returns (link: Link, rows: map<Bucket, int>)
    requires Distinct(input.components) && input.from > 0 && InPeriod(input)
    ensures IsPublicWaterfall(ORDERED_BUCKETS, input.days, change, rows)
    ensures link.Compatible? ==> Acceptable(input) && Explains(input, rows, link)
  {
    hide HalfEven, Acceptable, SumOver, IsReconciled, NetWorthAt, RoundedAt;
    var waterfall := AggregateAssetWaterfall(input.days);
    DisplayOrder();
    rows := ReconcileToChange(ORDERED_BUCKETS, waterfall, change);
    for i := 0 to |input.days| {
      if input.days[i].beginning.currency == "" || input.days[i].ending.currency == "" {
        return MissingValuationEvidence, rows;
      }
    }
    var proof := ProveAttributionPrecision(input);
    if !proof.Proved? {
      return Incompatible(proof), rows;
    }
    if beginning != Some(proof.beginning) || ending != Some(proof.ending) {
      return Incompatible(EndpointMismatch), rows;
    }
    var explained, residual := SplitRowsOf(ORDERED_BUCKETS, rows);
    var projectedTotal := explained + residual;
    if change != Some(proof.ending - proof.beginning) {
      return Incompatible(DriverMismatch), rows;
    }
    var analysisDelta := proof.ending - proof.beginning;
    var boundaryAdjustment := proof.exactDelta - analysisDelta as real;
    var driverAdjustment := analysisDelta - projectedTotal;
    var precisionAdjustment := boundaryAdjustment + driverAdjustment as real;
    if (explained + residual) as real + precisionAdjustment != proof.exactDelta {
      return Incompatible(DriverMismatch), rows;
    }
    WaterfallTotal(ORDERED_BUCKETS, input.days, waterfall);
    DriversExplainPeriod(input);
    PrecisionIsBounded(ORDERED_BUCKETS, waterfall, analysisDelta, rows, projectedTotal);
    link := Compatible(analysisDelta, explained, residual, boundaryAdjustment, driverAdjustment, precisionAdjustment);
  }

  function BucketSums(days: seq<ComponentDay>): Bucket -> real {
    b => SumOver(days, DayAmount(b))
  }

  function TotalsOver(buckets: seq<Bucket>): ComponentDay -> real {
    (day: ComponentDay) => SumOver(buckets, AmountsOf(day))
  }

  lemma {:induction false} BucketsByDay(buckets: seq<Bucket>, days: seq<ComponentDay>)
    ensures SumOver(buckets, BucketSums(days)) == SumOver(days, TotalsOver(buckets))
  {
    hide AmountIn;
    if days == [] {
      SumZero(buckets, BucketSums(days));
    } else {
      BucketsByDay(buckets, days[1..]);
      SumPlus(buckets, AmountsOf(days[0]), BucketSums(days[1..]), BucketSums(days));
    }
  }

  /** The exact waterfall holds the drivers of all days. */
  lemma WaterfallTotal(buckets: seq<Bucket>, days: seq<ComponentDay>, waterfall: map<Bucket, real>)
    requires ListsBuckets(buckets) && forall b :: Exact(waterfall)(b) == SumOver(days, DayAmount(b))
    ensures SumOver(buckets, Exact(waterfall)) == SumOver(days, DayTotals())
  {
    hide SumOver, DayTotal;
    SumEqual(buckets, Exact(waterfall), BucketSums(days));
    BucketsByDay(buckets, days);
    forall i | 0 <= i < |days|
      ensures TotalsOver(buckets)(days[i]) == DayTotals()(days[i]) { DayTotalOver(buckets, days[i]); }
    SumEqual(days, TotalsOver(buckets), DayTotals());
  }

  /** Rounding eleven rows costs at most eleven half units, and one if the total rounds well. */
  lemma PrecisionIsBounded(buckets: seq<Bucket>, waterfall: map<Bucket, real>, change: int,
                           rows: map<Bucket, int>, projected: int)
    requires ListsBuckets(buckets) && IsReconciled(buckets, waterfall, Some(change), rows)
    requires projected as real == SumOver(buckets, Units(rows))
    ensures var exact := SumOver(buckets, Exact(waterfall));
            && Abs(exact - projected as real) <= HalfUnits(11)
            && (HalfEven(exact) == change ==> Abs(exact - projected as real) <= 0.5 && projected == change)
  {
    hide SumOver, HalfEven;
    CoversCount(buckets, waterfall);
    var exact := SumOver(buckets, Exact(waterfall));
    if HalfEven(exact) == change {
      HalfEvenIsUnique(exact, change);
    } else {
      RoundedTotalIsNear(buckets, waterfall, rows);
    }
  }

  function Unexplained(rows: map<Bucket, int>): Bucket -> real {
    b => if b == Residual then Units(rows)(b) else 0.0
  }

  /** Adds up the rows in display order, the unexplained one apart. */
  method SplitRowsOf(buckets: seq<Bucket>, rows: map<Bucket, int>) returns (explained: int, residual: int)
    requires Distinct(buckets) && Residual in buckets
    ensures explained as real == SumOver(buckets, Explained(rows))
    ensures residual as real == Units(rows)(Residual)
    ensures (explained + residual) as real == SumOver(buckets, Units(rows))
  {
    explained, residual := 0, 0;
    for i := 0 to |buckets|
      invariant explained as real == SumOver(buckets[..i], Explained(rows))
      invariant residual as real == SumOver(buckets[..i], Unexplained(rows))
    {
      var b := buckets[i];
      SumLast(buckets, i, Explained(rows));
      SumLast(buckets, i, Unexplained(rows));
      assert Units(rows)(b) == if b in rows then rows[b] as real else 0.0;
      assert b == Residual ==> Explained(rows)(b) == 0.0;
      assert b == Residual ==> Unexplained(rows)(b) == Units(rows)(b);
      assert b != Residual ==> Explained(rows)(b) == Units(rows)(b);
      assert b != Residual ==> Unexplained(rows)(b) == 0.0;
      if b in rows {
        if b == Residual {
          residual := residual + rows[b];
        } else {
          explained := explained + rows[b];
        }
      }
    }
    assert buckets[..|buckets|] == buckets;
    SumSingle(buckets, Unexplained(rows), Residual);
    SumPlus(buckets, Explained(rows), Unexplained(rows), Units(rows));
  }
}
