/** The daily Modified Dietz series of the investment universe and its linked period rate. */
module DailyReturns {
  import opened AnalysisModel
  import opened CivilDays
  import opened MoneyRounding
  import opened ReturnFold
  import opened Sums

  datatype DailyReturn = DailyReturn(date: Date, status: Completeness, amount: Option<int>, capital: Option<int>,
                                     rate: Option<real>)

  datatype PeriodReturn = PeriodReturn(daily: seq<DailyReturn>, amount: Option<int>, capital: Option<int>,
                                       status: Completeness,
                                       rate: Option<real>, ratedDays: nat)

  // ----- One date

  /** The component days of a date, in order. */
  function OnDate(days: seq<ComponentDay>, date: Date): seq<ComponentDay> {
    if days == [] then []
    else OnDate(days[..|days| - 1], date) + if days[|days| - 1].date == date then [days[|days| - 1]] else []
  }

  predicate IsSet(m: SignedMoney) {
    m.currency != ""
  }

  /** What a component day adds to the universe's invested capital. */
  function CapitalOfDay(day: ComponentDay, bounds: (int, int)): real {
    (if IsSet(day.beginning) then day.beginning.units else 0) as real + WeightedFlows(day.flows, bounds)
  }

  function DailyPart(bounds: (int, int)): ComponentDay -> real {
    (day: ComponentDay) => CapitalOfDay(day, bounds)
  }

  /** The invested capital of the universe on a date: what its components began with and the
      capital flows of the day, weighted by the rest of it. */
  function DailyCapital(days: seq<ComponentDay>, bounds: (int, int)): real {
    SumOver(days, DailyPart(bounds))
  }

  ghost predicate IsComplete(days: seq<ComponentDay>) {
    days != [] && forall i :: 0 <= i < |days| ==> days[i].status.OK?
  }

  predicate BeginningKnown(days: seq<ComponentDay>) {
    exists i :: 0 <= i < |days| && IsSet(days[i].beginning)
  }

  /** The return of a date. It is rated when every component is complete and its capital positive. */
  ghost predicate IsDailyReturn(daily: DailyReturn, days: seq<ComponentDay>, bounds: (int, int)) {
    var capital := DailyCapital(days, bounds);
    && daily.amount == (if AmountKnown(days) then Some(ReturnTotal(days)) else None)
    && daily.capital == (if BeginningKnown(days) then Some(HalfEven(capital)) else None)
    && daily.rate
    == (if BeginningKnown(days) && IsComplete(days) && capital > 0.0 then Some(ReturnTotal(days) as real / capital)
        else None)
    && daily.status
    == (if !AmountKnown(days) && !BeginningKnown(days) then Unavailable else if IsComplete(days) then OK else Partial)
  }

  /** What the loop over a date has added up. */
  ghost predicate IsTally(days: seq<ComponentDay>, amount: int, beginning: int, flows: seq<CapitalFlow>, known: bool,
                          begun: bool, bounds: (int, int)) {
    && amount == ReturnTotal(days) && known == AmountKnown(days) && begun == BeginningKnown(days)
    && beginning as real + WeightedFlows(flows, bounds) == DailyCapital(days, bounds)
  }

  lemma TallyNothing(bounds: (int, int))
    ensures IsTally([], 0, 0, [], false, false, bounds)
  {
  }

  lemma TallyOneMore(days: seq<ComponentDay>, day: ComponentDay, amount: int, beginning: int, flows: seq<CapitalFlow>,
                     known: bool, begun: bool, bounds: (int, int))
    requires IsTally(days, amount, beginning, flows, known, begun, bounds)
    ensures IsTally(days + [day], amount + (if day.returnAmount.Some? then day.returnAmount.value else 0),
                    beginning + (if IsSet(day.beginning) then day.beginning.units else 0), flows + day.flows,
                    known || day.returnAmount.Some?, begun || IsSet(day.beginning), bounds)
  {
    hide ReturnTotal, AmountKnown, BeginningKnown, SumOver, WeightedFlows;
    TotalsOneMore(days, day);
    WeightedConcat(flows, day.flows, bounds);
    SumOneMore(days, day, DailyPart(bounds));
    OneMoreBegins(days, day);
  }

  lemma OneMoreBegins(days: seq<ComponentDay>, day: ComponentDay)
    ensures BeginningKnown(days + [day]) <==> BeginningKnown(days) || IsSet(day.beginning)
  {
    var all := days + [day];
    assert all[|days|] == day && forall i :: 0 <= i < |days| ==> all[i] == days[i];
  }

  /** Adds up one date. */
  method DailyReturnOf(date: Date, componentDays: seq<ComponentDay>, bounds: (int, int)) returns (daily: DailyReturn)
    ensures daily.date == date && IsDailyReturn(daily, componentDays, bounds)
  {
    hide IsTally;
    var amount, beginning := 0, 0;
    var flows: seq<CapitalFlow> := [];
    var complete, hasKnownAmount, hasKnownBeginning := |componentDays| > 0, false, false;
    TallyNothing(bounds);
    for i := 0 to |componentDays|
      invariant IsTally(componentDays[..i], amount, beginning, flows, hasKnownAmount, hasKnownBeginning, bounds)
      invariant complete <==> |componentDays| > 0 && forall j :: 0 <= j < i ==> componentDays[j].status.OK?
    {
      var day := componentDays[i];
      TallyOneMore(componentDays[..i], day, amount, beginning, flows, hasKnownAmount, hasKnownBeginning, bounds);
      assert componentDays[..i + 1] == componentDays[..i] + [day];
      if !day.status.OK? {
        complete := false;
      }
      if day.returnAmount.Some? {
        amount := amount + day.returnAmount.value;
        hasKnownAmount := true;
      }
      if day.beginning.currency != "" {
        beginning := beginning + day.beginning.units;
        hasKnownBeginning := true;
      }
      flows := flows + day.flows;
    }
    assert componentDays[..|componentDays|] == componentDays;
    var capital := WeighFlows(beginning, flows, bounds);
    daily := DailyFrom(date, componentDays, bounds, amount, beginning, flows, hasKnownAmount, hasKnownBeginning,
                       complete, capital);
  }

  /** The published return of a date that has been added up. */
  method DailyFrom(date: Date, ghost days: seq<ComponentDay>, ghost bounds: (int, int), amount: int,
                   ghost beginning: int, ghost flows: seq<CapitalFlow>,
                   known: bool, begun: bool, complete: bool, capital: real) returns (daily: DailyReturn)
    requires IsTally(days, amount, beginning, flows, known, begun, bounds)
             && capital == beginning as real + WeightedFlows(flows, bounds)
    requires complete <==> IsComplete(days)
    ensures daily.date == date && IsDailyReturn(daily, days, bounds)
  {
    hide ReturnTotal, AmountKnown, BeginningKnown, DailyCapital, WeightedFlows, IsComplete;
    var status := Unavailable;
    if known || begun {
      status := if complete then OK else Partial;
    }
    daily := DailyReturn(date, status, if known then Some(amount) else None,
                         if begun then Some(HalfEven(capital)) else None,
                         if begun && complete && capital > 0.0 then Some(amount as real / capital) else None);
  }

  method WeighFlows(beginning: int, flows: seq<CapitalFlow>, bounds: (int, int)) returns (capital: real)
    ensures capital == beginning as real + WeightedFlows(flows, bounds)
  {
    hide DietzFlowWeight;
    capital := beginning as real;
    for i := 0 to |flows|
      invariant capital == beginning as real + WeightedFlows(flows[..i], bounds)
    {
      assert flows[..i + 1][..i] == flows[..i];
      capital := capital + flows[i].units as real * DietzFlowWeight(flows[i].at, bounds);
    }
    assert flows[..|flows|] == flows;
  }

  // ----- The period

  /** What a date of the period returned; a skipped one nothing. */
  ghost predicate IsDateReturn(daily: DailyReturn, days: seq<ComponentDay>, date: Date, bounds: Bounds) {
    daily.date == date
    && match bounds
       case Bounds(start, end) => IsDailyReturn(daily, OnDate(days, date), (start, end))
       case _ => daily == DailyReturn(date, Unavailable, None, None, None)
  }

  function AmountsOf(daily: seq<DailyReturn>): int {
    if daily == [] then 0
    else AmountsOf(daily[..|daily| - 1])
         + if daily[|daily| - 1].amount.Some? then daily[|daily| - 1].amount.value else 0
  }

  /** The daily rates that are linked. */
  function RatesOf(daily: seq<DailyReturn>): seq<real> {
    if daily == [] then []
    else
      var last := daily[|daily| - 1];
      RatesOf(daily[..|daily| - 1]) + if last.rate.Some? && last.status.OK? then [last.rate.value] else []
  }

  lemma LinkedOneMore(rates: seq<real>, rate: real)
    ensures Linked(rates + [rate]) == Linked(rates) * (1.0 + rate)
  {
    assert (rates + [rate])[..|rates + [rate]| - 1] == rates;
  }

  /** Links the rates of the complete dates. */
  method AggregateDailyReturnRate(daily: seq<DailyReturn>) returns (rate: Option<real>, ratedDays: nat)
    ensures ratedDays == |RatesOf(daily)|
    ensures rate == if ratedDays == 0 || ratedDays * 2 < |daily| then None else Some(Linked(RatesOf(daily)) - 1.0)
  {
    hide RatesOf, Linked;
    var linked := 1.0;
    ratedDays := 0;
    NoRates();
    for i := 0 to |daily|
      invariant ratedDays == |RatesOf(daily[..i])| && linked == Linked(RatesOf(daily[..i]))
    {
      RatesOneMore(daily, i);
      if daily[i].rate.None? || !daily[i].status.OK? {
        continue;
      }
      LinkedOneMore(RatesOf(daily[..i]), daily[i].rate.value);
      linked := linked * (1.0 + daily[i].rate.value);
      ratedDays := ratedDays + 1;
    }
    assert daily[..|daily|] == daily;
    rate := if ratedDays == 0 || ratedDays * 2 < |daily| then None else Some(linked - 1.0);
  }

  lemma NoRates()
    ensures RatesOf([]) == [] && Linked([]) == 1.0
  {
  }

  lemma RatesOneMore(daily: seq<DailyReturn>, i: nat)
    requires i < |daily|
    ensures RatesOf(daily[..i + 1])
            == if daily[i].rate.Some? && daily[i].status.OK? then RatesOf(daily[..i]) + [daily[i].rate.value]
            else RatesOf(daily[..i])
  {
    assert daily[..i + 1][..i] == daily[..i];
    assert RatesOf(daily[..i]) + [] == RatesOf(daily[..i]);
  }

  function BeginningTotal(days: seq<ComponentDay>): int {
    if days == [] then 0
    else BeginningTotal(days[..|days| - 1])
         + if IsSet(days[|days| - 1].beginning) then days[|days| - 1].beginning.units else 0
  }

  predicate HasCurrency(daily: seq<DailyReturn>) {
    exists i :: 0 <= i < |daily| && (daily[i].amount.Some? || daily[i].capital.Some?)
  }

  predicate HasUsable(daily: seq<DailyReturn>) {
    exists i :: 0 <= i < |daily| && !daily[i].status.Unavailable?
  }

  predicate HasIncomplete(daily: seq<DailyReturn>) {
    exists i :: 0 <= i < |daily| && !daily[i].status.OK?
  }

  type BoundsOf = Date -> Bounds

  ghost predicate IsSeries(daily: seq<DailyReturn>, days: seq<ComponentDay>, from: Date, boundsOf: BoundsOf) {
    forall i :: 0 <= i < |daily| ==> IsDateReturn(daily[i], days, from + i, boundsOf(from + i))
  }

  /** The return of a period of investment component days: the daily series, what it adds up to,
      the capital it began with and the linked rate of at least half of its dates. */
  ghost predicate IsPeriodReturn(p: PeriodReturn, days: seq<ComponentDay>, from: Date, total: nat, boundsOf: BoundsOf) {
    && |p.daily| == total && IsSeries(p.daily, days, from, boundsOf)
    && p.amount == (if HasCurrency(p.daily) then Some(AmountsOf(p.daily)) else None)
    && p.capital == (if total > 0 && boundsOf(from).Bounds? && BeginningKnown(OnDate(days, from))
                     then Some(BeginningTotal(OnDate(days, from))) else None)
    && p.status == (if !HasUsable(p.daily) then Unavailable else if HasIncomplete(p.daily) then Partial else OK)
    && p.ratedDays == |RatesOf(p.daily)|
    && p.rate == (if p.ratedDays == 0 || p.ratedDays * 2 < total then None else Some(Linked(RatesOf(p.daily)) - 1.0))
  }

  method CollectDate(days: seq<ComponentDay>, date: Date) returns (componentDays: seq<ComponentDay>)
    ensures componentDays == OnDate(days, date)
  {
    componentDays := [];
    for i := 0 to |days|
      invariant componentDays == OnDate(days[..i], date)
    {
      assert days[..i + 1][..i] == days[..i];
      if days[i].date == date {
        componentDays := componentDays + [days[i]];
      }
    }
    assert days[..|days|] == days;
  }

  method BeginningsOf(days: seq<ComponentDay>) returns (total: Option<int>)
    ensures total == if BeginningKnown(days) then Some(BeginningTotal(days)) else None
  {
    var sum, known := 0, false;
    for i := 0 to |days|
      invariant sum == BeginningTotal(days[..i])
      invariant known <==> exists j :: 0 <= j < i && IsSet(days[j].beginning)
    {
      assert days[..i + 1][..i] == days[..i];
      if days[i].beginning.currency != "" {
        sum, known := sum + days[i].beginning.units, true;
      }
    }
    assert days[..|days|] == days;
    total := if known then Some(sum) else None;
  }

  /** One date of the period. */
  method FinalizeDate(days: seq<ComponentDay>, date: Date, bounds: Bounds) returns (daily: DailyReturn)
    requires !bounds.BoundsError?
    ensures IsDateReturn(daily, days, date, bounds)
  {
    hide IsDailyReturn;
    if bounds.NoSuchDay? {
      return DailyReturn(date, Unavailable, None, None, None);
    }
    var componentDays := CollectDate(days, date);
    daily := DailyReturnOf(date, componentDays, (bounds.start, bounds.end));
  }

  /** Turns component days into the daily series and the return of the period; a date whose
      bounds cannot be found ends it. */
  method FinalizeAnalysisReturns(days: seq<ComponentDay>, from: Date, total: nat, boundsOf: BoundsOf)
    returns (r: Option<PeriodReturn>)
    ensures r.Some? <==> forall date :: from <= date < from + total ==> !boundsOf(date).BoundsError?
    ensures r.Some? ==> IsPeriodReturn(r.value, days, from, total, boundsOf)
  {
    hide IsDateReturn, RatesOf, Linked, HasCurrency, HasUsable, HasIncomplete, AmountsOf, BeginningKnown,
         BeginningTotal, OnDate;
    NoDates();
    var daily: seq<DailyReturn>, amount := [], 0;
    var capital: Option<int> := None;
    var hasCurrency, hasUsable, hasIncomplete := false, false, false;
    for i := 0 to total
      invariant |daily| == i && IsSeries(daily, days, from, boundsOf)
      invariant forall date :: from <= date < from + i ==> !boundsOf(date).BoundsError?
      invariant amount == AmountsOf(daily)
      invariant hasCurrency == HasCurrency(daily) && hasUsable == HasUsable(daily)
                && hasIncomplete == HasIncomplete(daily)
      invariant capital
                == if i > 0 && boundsOf(from).Bounds? && BeginningKnown(OnDate(days, from))
                then Some(BeginningTotal(OnDate(days, from))) else None
    {
      var bounds := boundsOf(from + i);
      if bounds.BoundsError? {
        assert boundsOf(from + i).BoundsError?;
        return None;
      }
      var one := FinalizeDate(days, from + i, bounds);
      if i == 0 && bounds.Bounds? {
        var componentDays := CollectDate(days, from);
        capital := BeginningsOf(componentDays);
      }
      OneMoreDate(daily, one);
      amount := amount + if one.amount.Some? then one.amount.value else 0;
      hasCurrency := hasCurrency || one.amount.Some? || one.capital.Some?;
      hasUsable, hasIncomplete := hasUsable || !one.status.Unavailable?, hasIncomplete || !one.status.OK?;
      daily := daily + [one];
    }
    var rate, ratedDays := AggregateDailyReturnRate(daily);
    r := Some(PeriodReturn(daily, if hasCurrency then Some(amount) else None, capital,
                           if !hasUsable then Unavailable else if hasIncomplete then Partial else OK, rate, ratedDays));
  }

  lemma NoDates()
    ensures AmountsOf([]) == 0 && !HasCurrency([]) && !HasUsable([]) && !HasIncomplete([])
  {
  }

  lemma OneMoreDate(daily: seq<DailyReturn>, one: DailyReturn)
    ensures AmountsOf(daily + [one]) == AmountsOf(daily) + if one.amount.Some? then one.amount.value else 0
    ensures HasCurrency(daily + [one]) <==> HasCurrency(daily) || one.amount.Some? || one.capital.Some?
    ensures HasUsable(daily + [one]) <==> HasUsable(daily) || !one.status.Unavailable?
    ensures HasIncomplete(daily + [one]) <==> HasIncomplete(daily) || !one.status.OK?
  {
    var all := daily + [one];
    assert all[..|daily|] == daily && all[|daily|] == one;
    assert forall i :: 0 <= i < |daily| ==> all[i] == daily[i];
  }

  // ----- The rows and the period

  /** Every component day lies on an existing date of the period. */
  ghost predicate Within(days: seq<ComponentDay>, from: Date, total: nat, boundsOf: BoundsOf) {
    forall day :: day in days ==> from <= day.date < from + total && boundsOf(day.date).Bounds?
  }

  function Before(days: seq<ComponentDay>, limit: Date): seq<ComponentDay> {
    if days == [] then []
    else Before(days[..|days| - 1], limit) + if days[|days| - 1].date < limit then [days[|days| - 1]] else []
  }

  lemma {:induction false} OneMoreReturn(days: seq<ComponentDay>, date: Date)
    ensures ReturnTotal(Before(days, date + 1)) == ReturnTotal(Before(days, date)) + ReturnTotal(OnDate(days, date))
    ensures AmountKnown(OnDate(days, date)) || ReturnTotal(OnDate(days, date)) == 0
  {
    hide ReturnTotal, AmountKnown;
    NoReturnOfNothing();
    if days != [] {
      var n := |days| - 1;
      var front, day := days[..n], days[n];
      OneMoreReturn(front, date);
      TotalsOneMore(OnDate(front, date), day);
      TotalsOneMore(Before(front, date), day);
      TotalsOneMore(Before(front, date + 1), day);
      assert OnDate(front, date) + [] == OnDate(front, date);
      assert Before(front, date) + [] == Before(front, date) && Before(front, date + 1) + [] == Before(front, date + 1);
    }
  }

  lemma {:induction false} BeforeAllOrNone(days: seq<ComponentDay>, from: Date, limit: Date)
    requires forall day :: day in days ==> from <= day.date < limit
    ensures Before(days, from) == [] && Before(days, limit) == days
  {
    if days != [] {
      BeforeAllOrNone(days[..|days| - 1], from, limit);
      assert days[|days| - 1] in days;
    }
  }

  lemma {:induction false} AmountsUpTo(daily: seq<DailyReturn>, days: seq<ComponentDay>, from: Date, n: nat,
                                       boundsOf: BoundsOf)
    requires n <= |daily| && IsSeries(daily, days, from, boundsOf) && Within(days, from, |daily|, boundsOf)
    ensures AmountsOf(daily[..n]) == ReturnTotal(Before(days, from + n))
  {
    hide IsDateReturn, ReturnTotal, AmountKnown, Before, OnDate;
    if n == 0 {
      BeforeAllOrNone(days, from, from + |daily|);
      NoReturnOfNothing();
    } else {
      AmountsUpTo(daily, days, from, n - 1, boundsOf);
      assert daily[..n][..n - 1] == daily[..n - 1];
      OneMoreReturn(days, from + n - 1);
      AmountOfDate(daily[n - 1], days, from + n - 1, boundsOf);
    }
  }

  lemma AmountOfDate(daily: DailyReturn, days: seq<ComponentDay>, date: Date, boundsOf: BoundsOf)
    requires IsDateReturn(daily, days, date, boundsOf(date)) && forall day :: day in days ==> boundsOf(day.date).Bounds?
    ensures (if daily.amount.Some? then daily.amount.value else 0) == ReturnTotal(OnDate(days, date))
  {
    hide DailyCapital;
    OneMoreReturn(days, date);
    if !boundsOf(date).Bounds? {
      NothingOnDate(days, date);
    }
  }

  lemma {:induction false} NothingOnDate(days: seq<ComponentDay>, date: Date)
    requires forall day :: day in days ==> day.date != date
    ensures OnDate(days, date) == []
  {
    if days != [] {
      NothingOnDate(days[..|days| - 1], date);
      assert days[|days| - 1] in days;
    }
  }

  /** The published return of the period is what the rows of any grouping add up to. */
  lemma RowsSplitPeriodReturn(p: PeriodReturn, r: Result, a: Analysis, grouping: GroupBy, from: Date,
                              boundsOf: BoundsOf)
    requires IsFold(r, a, grouping) && r.Ok?
    requires var days := EligibleDays(a.days, a.includeCash);
             IsPeriodReturn(p, days, from, |p.daily|, boundsOf) && Within(days, from, |p.daily|, boundsOf)
    ensures SumOver(r.rows, (row: Row) => row.returnAmount as real)
            == (if p.amount.Some? then p.amount.value else 0) as real
  {
    hide IsFold, SumOver, ReturnTotal, IsDateReturn, EligibleDays, Linked, RatesOf, Before, AmountsOf, HasCurrency,
         OnDate, BeginningKnown;
    var days := EligibleDays(a.days, a.includeCash);
    RowsSplitReturn(r, a, grouping);
    AmountsUpTo(p.daily, days, from, |p.daily|, boundsOf);
    BeforeAllOrNone(days, from, from + |p.daily|);
    assert p.daily[..|p.daily|] == p.daily;
    if p.amount.None? { NoAmounts(p.daily); }
  }

  lemma {:induction false} NoAmounts(daily: seq<DailyReturn>)
    requires !HasCurrency(daily)
    ensures AmountsOf(daily) == 0
  {
    if daily != [] {
      assert !HasCurrency(daily[..|daily| - 1]);
      NoAmounts(daily[..|daily| - 1]);
    }
  }
}
