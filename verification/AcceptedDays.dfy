/** Which of the days that the kernel builds the run-time certificate accepts: those that leave
    nothing unexplained and unrecorded, on dates whose neutral legs cancel. */
module AcceptedDays {
  import opened AnalysisModel
  import opened DailyReturns
  import opened MoneyRounding
  import opened Sorting
  import opened Sums
  import B = Bridges
  import C = Classifier
  import D = ComponentDays
  import P = AttributionProof
  import W = Waterfall

  // ----- One component day

  /** How a component day was attributed: from which effects and with which bridge. */
  datatype Working = Working(attribution: D.DayAttribution, effects: seq<B.Effect>, bridge: B.Bridge)

  function Begin(input: P.Input, day: ComponentDay): real
    requires day.date > 0
  {
    P.ValueAt(input, day.date - 1)(day.component)
  }

  function End(input: P.Input, day: ComponentDay): real {
    P.ValueAt(input, day.date)(day.component)
  }

  /** A component day as it is built between two boundaries. Exact and rounded buckets both leave
      out what is nothing. */
  ghost predicate IsAttributed(input: P.Input, day: ComponentDay, w: Working, places: nat) {
    && P.Bounded(input, day.date)
    && D.IsAttribution(w.attribution, w.effects, w.bridge, Begin(input, day), End(input, day), places)
    && day.exactBuckets == w.attribution.buckets && (day.exactBuckets == map[] ==> day.assetBuckets == map[])
    && day.beginning == SignedMoney(HalfEven(Begin(input, day)), input.currency)
    && day.ending == SignedMoney(HalfEven(End(input, day)), input.currency)
  }

  /** The check sees the same neutral legs as the day did. */
  ghost predicate IsKernelDay(input: P.Input, day: ComponentDay, w: Working, places: nat) {
    IsAttributed(input, day, w, places)
    && SumOver(w.effects, D.Neutral()) == P.NeutralOn(input, day.date, day.component)
  }

  /** Nothing is left, or what is left is recorded as a residual. */
  ghost predicate LeavesNothing(input: P.Input, day: ComponentDay, w: Working)
    requires day.date > 0
  {
    w.attribution.residual.Some? || D.Unexplained(w.effects, w.bridge, Begin(input, day), End(input, day)) == 0.0
  }

  lemma DayTotalIs(day: ComponentDay)
    requires day.exactBuckets == map[] ==> day.assetBuckets == map[]
    ensures P.DayTotal(day) == SumOver(ORDERED_BUCKETS, Exact(day.exactBuckets))
  {
    hide SumOver, ExactSum;
    W.DisplayOrder();
    assert P.CountedAmounts(day) == day.exactBuckets;
    ExactSumOver(ORDERED_BUCKETS, day.exactBuckets);
  }

  /** The check accepts a kernel day exactly when it leaves nothing. */
  lemma KernelDayReconciles(input: P.Input, day: ComponentDay, w: Working, places: nat)
    requires IsKernelDay(input, day, w, places)
    ensures P.DayAgrees(input, day)
    ensures P.DayReconciles(input, day) <==> LeavesNothing(input, day, w)
  {
    hide SumOver, P.ValueAt, P.NeutralOn, P.DayTotal, D.Attribution, D.Tolerance, HalfEven;
    DayTotalIs(day);
    W.DisplayOrder();
    SumEqual(ORDERED_BUCKETS, Exact(day.exactBuckets), D.Attribution(w.effects, w.bridge, w.attribution.residual));
    D.AttributionTotal(ORDERED_BUCKETS, w.effects, w.bridge, w.attribution.residual);
  }

  // ----- A date

  /** One day for every component on every date of the period, in the order of the components. */
  ghost predicate CoversPeriod(input: P.Input) {
    && (forall day :: day in input.days ==> input.from <= day.date <= input.to)
    && (forall date: Date :: input.from <= date <= input.to ==> CoversDate(input, date))
  }

  ghost predicate CoversDate(input: P.Input, date: Date) {
    var days := OnDate(input.days, date);
    |days| == |input.components| && forall i :: 0 <= i < |days| ==> days[i].component == input.components[i]
  }

  /** The drivers of a date are those of its days. */
  lemma {:induction false} DriversOnDate(days: seq<ComponentDay>, date: Date)
    ensures SumOver(days, P.DriverOn(date)) == SumOver(OnDate(days, date), P.DayTotals())
    ensures forall day :: day in OnDate(days, date) ==> day in days && day.date == date
  {
    hide SumOver, P.DayTotal;
    if days == [] {
      SumZero(days, P.DriverOn(date));
      SumZero(OnDate(days, date), P.DayTotals());
    } else {
      var n := |days| - 1;
      DriversOnDate(days[..n], date);
      SumLast(days, n, P.DriverOn(date));
      assert days[..n + 1] == days;
      if days[n].date == date {
        SumOneMore(OnDate(days[..n], date), days[n], P.DayTotals());
      } else {
        assert OnDate(days[..n], date) + [] == OnDate(days[..n], date);
      }
    }
  }

  /** What the neutral legs of a date add up to over the components. */
  function NeutralsOf(input: P.Input, date: Date): Component -> real {
    (c: Component) => P.NeutralOn(input, date, c)
  }

  ghost predicate NeutralsCancel(input: P.Input, date: Date) {
    SumOver(input.components, NeutralsOf(input, date)) == 0.0
  }

  function ChangeOf(input: P.Input, date: Date): Component -> real {
    (c: Component) => P.ValueAt(input, date)(c) - if date > 0 then P.ValueAt(input, date - 1)(c) else 0.0
  }

  /** When every day of a date reconciles, the date does exactly when its neutral legs cancel. */
  lemma DateReconcilesExactlyWhen(input: P.Input, date: Date)
    requires P.Bounded(input, date) && CoversDate(input, date)
    requires forall day :: day in input.days ==> day.date > 0 && P.DayReconciles(input, day)
    ensures P.DateReconciles(input, date) <==> NeutralsCancel(input, date)
  {
    hide SumOver, P.DayTotal, P.NeutralOn, P.ValueAt, OnDate, P.Bounded;
    assert date > 0 by { IsBounded(input, date); }
    var days := OnDate(input.days, date);
    DriversOnDate(input.days, date);
    var change, neutral := ChangeOf(input, date), NeutralsOf(input, date);
    var driver: Component -> real := (c: Component) => change(c) - neutral(c);
    forall i | 0 <= i < |days| ensures P.DayTotals()(days[i]) == driver(input.components[i]) {
      assert days[i] in days;
      assert P.DayReconciles(input, days[i]);
    }
    SumPairs(days, input.components, P.DayTotals(), driver);
    SumMinus(input.components, change, neutral, driver);
    SumMinus(input.components, P.ValueAt(input, date), P.ValueAt(input, date - 1), change);
  }

  lemma IsBounded(input: P.Input, date: Date)
    requires P.Bounded(input, date)
    ensures date > 0
  {
  }

  // ----- The period

  /** The comparison that is checked is the one between the boundaries of the period. */
  ghost predicate ComparesBoundaries(input: P.Input) {
    && (forall i :: 0 <= i < |input.snapshots| ==> P.Usable(input.components, input.snapshots[i].items))
    && 0 < input.from <= input.to
    && (forall date: Date :: input.from <= date <= input.to ==> P.Bounded(input, date))
    && input.comparison.left == Some(P.NetWorthAt(input, input.from - 1))
    && input.comparison.right == Some(P.NetWorthAt(input, input.to))
    && input.comparison.change == Some(P.NetWorthAt(input, input.to) - P.NetWorthAt(input, input.from - 1))
  }

  ghost predicate AreKernelDays(input: P.Input, workings: seq<Working>, places: nat) {
    && |workings| == |input.days|
    && forall i :: 0 <= i < |workings| ==> IsKernelDay(input, input.days[i], workings[i], places)
  }

  ghost predicate AllLeaveNothing(input: P.Input, workings: seq<Working>)
    requires |workings| == |input.days| && forall i :: 0 <= i < |workings| ==> input.days[i].date > 0
  {
    forall i :: 0 <= i < |workings| ==> LeavesNothing(input, input.days[i], workings[i])
  }

  lemma KernelDaysAreDated(input: P.Input, workings: seq<Working>, places: nat)
    requires AreKernelDays(input, workings, places)
    ensures forall i :: 0 <= i < |workings| ==> input.days[i].date > 0
  {
    forall i | 0 <= i < |workings| ensures input.days[i].date > 0 {
      assert IsKernelDay(input, input.days[i], workings[i], places);
    }
  }

  lemma EndpointsAreBounded(input: P.Input)
    requires ComparesBoundaries(input)
    ensures P.ItemsAt(input.snapshots, input.from - 1).Some? && P.ItemsAt(input.snapshots, input.to).Some?
  {
    hide P.ItemsAt, P.NetWorthAt;
    assert P.Bounded(input, input.from) && P.Bounded(input, input.to);
  }

  /** The certificate accepts the days of the kernel exactly when each of them leaves nothing and
      the neutral legs of every date cancel. */
  lemma KernelDaysAreAccepted(input: P.Input, workings: seq<Working>, places: nat)
    requires ComparesBoundaries(input) && CoversPeriod(input) && AreKernelDays(input, workings, places)
    ensures forall i :: 0 <= i < |workings| ==> input.days[i].date > 0
    ensures P.Acceptable(input)
            <==> AllLeaveNothing(input, workings)
                 && forall date: Date :: input.from <= date <= input.to ==> NeutralsCancel(input, date)
  {
    hide P.DayAgrees, P.DayReconciles, P.DateReconciles, P.NetWorthAt, P.ItemsAt, P.Bounded, IsKernelDay, LeavesNothing,
         NeutralsCancel, CoversDate;
    KernelDaysAreDated(input, workings, places);
    EndpointsAreBounded(input);
    forall i | 0 <= i < |workings|
      ensures P.DayAgrees(input, input.days[i])
              && (P.DayReconciles(input, input.days[i]) <==> LeavesNothing(input, input.days[i], workings[i]))
    {
      KernelDayReconciles(input, input.days[i], workings[i], places);
    }
    assert (forall day :: day in input.days ==> P.DayAgrees(input, day));
    assert (forall day :: day in input.days ==> P.DayReconciles(input, day)) <==> AllLeaveNothing(input, workings) by {
      if forall day :: day in input.days ==> P.DayReconciles(input, day) {
        forall i | 0 <= i < |workings| ensures LeavesNothing(input, input.days[i], workings[i]) {
          assert input.days[i] in input.days;
        }
      }
    }
    if forall day :: day in input.days ==> P.DayReconciles(input, day) {
      forall date: Date | input.from <= date <= input.to
        ensures P.DateReconciles(input, date) <==> NeutralsCancel(input, date) {
        DateReconcilesExactlyWhen(input, date);
      }
    }
  }
}
