/** The capital of all groups of a day against the daily capital of the investment universe: they
    differ by the weighted gaps of the movements inside it, whatever the grouping. */
module GroupCapital {
  import opened AnalysisModel
  import opened CapitalLaws
  import opened Classifier
  import opened DailyReturns
  import opened DayCapital
  import opened ReturnFold
  import opened Sorting
  import opened Sums

  // ----- The effects of a day

  function Tagged(legs: seq<Classified>, at: int): seq<Timed> {
    if legs == [] then [] else Tagged(legs[..|legs| - 1], at) + [Timed(legs[|legs| - 1], at)]
  }

  /** The classified effects of a day's activities, in order. */
  function TimedLegs(u: Universe, activities: seq<Activity>): seq<Timed> {
    if activities == [] then []
    else
      var a := activities[|activities| - 1];
      TimedLegs(u, activities[..|activities| - 1]) + Tagged(Classify(u, a), a.at)
  }

  /** Those of one component. */
  function LegsOf(timed: seq<Timed>, c: Component): seq<Timed> {
    if timed == [] then []
    else
      var t := timed[|timed| - 1];
      LegsOf(timed[..|timed| - 1], c) + if SameComponent(t.leg.component, c) then [t] else []
  }

  /** Classifies the activities of a day and picks the effects of a component. */
  method EffectsOfComponent(u: Universe, activities: seq<Activity>, c: Component) returns (effects: seq<Timed>)
    ensures effects == LegsOf(TimedLegs(u, activities), c)
  {
    hide Classify;
    var timed: seq<Timed> := [];
    for i := 0 to |activities|
      invariant timed == TimedLegs(u, activities[..i])
    {
      assert activities[..i + 1][..i] == activities[..i];
      var classified := ClassifyActivity(u, activities[i]);
      ghost var before := timed;
      for j := 0 to |classified|
        invariant timed == before + Tagged(classified[..j], activities[i].at)
      {
        assert classified[..j + 1][..j] == classified[..j];
        timed := timed + [Timed(classified[j], activities[i].at)];
      }
      assert classified[..|classified|] == classified;
    }
    assert activities[..|activities|] == activities;
    effects := [];
    for i := 0 to |timed|
      invariant effects == LegsOf(timed[..i], c)
    {
      assert timed[..i + 1][..i] == timed[..i];
      if SameComponent(timed[i].leg.component, c) {
        effects := effects + [timed[i]];
      }
    }
    assert timed[..|timed|] == timed;
  }

  // ----- Gaps of a day

  /** What a movement inside the universe adds to the groups: its gap for the rest of the day. */
  function GapAt(u: Universe, a: Activity, bounds: (int, int)): real {
    if IsInternal(u, a) then Times(Gap(u, a, InUnits()), DietzFlowWeight(a.at, bounds)) else 0.0
  }

  function GapOn(u: Universe, bounds: (int, int)): Activity -> real {
    (a: Activity) => GapAt(u, a, bounds)
  }

  lemma {:induction false} SumTagged(u: Universe, legs: seq<Classified>, at: int, bounds: (int, int))
    ensures SumOver(Tagged(legs, at), OnDay(u, bounds)) == Times(SumOver(legs, Extra(u)), DietzFlowWeight(at, bounds))
  {
    hide SumOver, DietzFlowWeight, Extra;
    if legs == [] {
      SumZero([], OnDay(u, bounds));
      SumZero([], Extra(u));
    } else {
      var n := |legs| - 1;
      SumTagged(u, legs[..n], at, bounds);
      SumOneMore(Tagged(legs[..n], at), Timed(legs[n], at), OnDay(u, bounds));
      SumLast(legs, n, Extra(u));
      assert legs[..n + 1] == legs;
      Distributes(SumOver(legs[..n], Extra(u)), Extra(u)(legs[n]), DietzFlowWeight(at, bounds));
    }
  }

  lemma ExtraIsGap(u: Universe, a: Activity)
    requires IsResolved(u) && IsRecorded(u, a)
    ensures SumOver(Classify(u, a), Extra(u)) == if IsInternal(u, a) then Gap(u, a, InUnits()) else 0.0
  {
    hide SumOver, Classify, Gap, IsInternal, IsResolved, IsRecorded, Keeps, Counts;
    UnitsAreOdd();
    GroupsCountTheGap(u, a, InUnits());
    SumMinus(Classify(u, a), Keeps(u, InUnits()), Counts(u, InUnits()), Extra(u));
  }

  lemma {:induction false} DayAddsGaps(u: Universe, activities: seq<Activity>, bounds: (int, int))
    requires IsResolved(u) && forall i :: 0 <= i < |activities| ==> IsRecorded(u, activities[i])
    ensures SumOver(TimedLegs(u, activities), OnDay(u, bounds)) == SumOver(activities, GapOn(u, bounds))
  {
    hide SumOver, Classify, Gap, IsInternal, IsResolved, IsRecorded, OnDay, Extra, DietzFlowWeight;
    if activities == [] {
      SumZero([], OnDay(u, bounds));
      SumZero([], GapOn(u, bounds));
    } else {
      var n := |activities| - 1;
      var a := activities[n];
      DayAddsGaps(u, activities[..n], bounds);
      SumTagged(u, Classify(u, a), a.at, bounds);
      ExtraIsGap(u, a);
      SumAppend(TimedLegs(u, activities[..n]), Tagged(Classify(u, a), a.at), OnDay(u, bounds));
      SumLast(activities, n, GapOn(u, bounds));
      assert activities[..n + 1] == activities;
    }
  }

  // ----- Every effect has one component

  /** The components of the investment universe, each once. */
  ghost predicate ListsInvested(u: Universe, components: seq<Component>) {
    && (forall i, j :: 0 <= i < j < |components| ==> !SameComponent(components[i], components[j]))
    && (forall i :: 0 <= i < |components| ==> u.invested(components[i]))
    && (forall c :: u.invested(c) ==> IsListed(components, c))
  }

  /** Selection and valuation go by component. */
  ghost predicate GoesByComponent(u: Universe, valued: Component -> bool) {
    forall c, d :: SameComponent(c, d) ==> u.invested(c) == u.invested(d) && valued(c) == valued(d)
  }

  /** What reaches the groups: legs of a component whose day is valued. */
  function Reached(u: Universe, bounds: (int, int), valued: Component -> bool): Timed -> real {
    (t: Timed) => if valued(t.leg.component) then ExtraAt(u, t, bounds) else 0.0
  }

  function Lost(u: Universe, bounds: (int, int), valued: Component -> bool): Timed -> real {
    (t: Timed) => if valued(t.leg.component) then 0.0 else ExtraAt(u, t, bounds)
  }

  function TotalOf(timed: seq<Timed>, c: Component, f: Timed -> real): real {
    SumOver(LegsOf(timed, c), f)
  }

  function ByComponent(timed: seq<Timed>, f: Timed -> real): Component -> real {
    (c: Component) => TotalOf(timed, c, f)
  }

  function AtHome(t: Timed, x: real): Component -> real {
    (c: Component) => if SameComponent(t.leg.component, c) then x else 0.0
  }

  lemma {:induction false} OneHome(components: seq<Component>, t: Timed, x: real)
    requires forall i, j :: 0 <= i < j < |components| ==> !SameComponent(components[i], components[j])
    requires IsListed(components, t.leg.component) || x == 0.0
    ensures SumOver(components, AtHome(t, x)) == x
  {
    hide SameComponent;
    if components != [] {
      var first, rest := components[0], components[1..];
      forall j | 0 <= j < |rest| ensures !SameComponent(first, rest[j]) {
        assert rest[j] == components[j + 1] && components[0] == first;
      }
      if SameComponent(t.leg.component, first) {
        forall j | 0 <= j < |rest| ensures AtHome(t, x)(rest[j]) == 0.0 {
          if SameComponent(t.leg.component, rest[j]) { SameIsShared(t.leg.component, first, rest[j]); }
        }
        SumZero(rest, AtHome(t, x));
      } else {
        forall j, k | 0 <= j < k < |rest| ensures !SameComponent(rest[j], rest[k]) {
          assert rest[j] == components[j + 1] && rest[k] == components[k + 1];
        }
        if IsListed(components, t.leg.component) {
          var i :| 0 <= i < |components| && SameComponent(t.leg.component, components[i]);
          assert components[i] == rest[i - 1];
        }
        OneHome(rest, t, x);
      }
    }
  }

  lemma {:induction false} ComponentsShare(components: seq<Component>, timed: seq<Timed>, f: Timed -> real)
    requires forall i, j :: 0 <= i < j < |components| ==> !SameComponent(components[i], components[j])
    requires forall i :: 0 <= i < |timed| ==> IsListed(components, timed[i].leg.component) || f(timed[i]) == 0.0
    ensures SumOver(components, ByComponent(timed, f)) == SumOver(timed, f)
  {
    hide SumOver, SameComponent, IsListed;
    if timed == [] {
      NothingShared(components, f);
    } else {
      var n := |timed| - 1;
      var front, t := timed[..n], timed[n];
      ComponentsShare(components, front, f);
      OneHome(components, t, f(t));
      forall i | 0 <= i < |components|
        ensures ByComponent(timed, f)(components[i])
                == ByComponent(front, f)(components[i]) + AtHome(t, f(t))(components[i])
      {
        OneMoreOf(timed, components[i], f);
      }
      SumPlus(components, ByComponent(front, f), AtHome(t, f(t)), ByComponent(timed, f));
      SumLast(timed, n, f);
      assert timed[..n + 1] == timed;
    }
  }

  lemma NothingShared(components: seq<Component>, f: Timed -> real)
    ensures SumOver(components, ByComponent([], f)) == SumOver([], f)
  {
    forall c ensures TotalOf([], c, f) == 0.0 {}
    SumZero(components, ByComponent([], f));
  }

  lemma OneMoreOf(timed: seq<Timed>, c: Component, f: Timed -> real)
    requires timed != []
    ensures TotalOf(timed, c, f) == TotalOf(timed[..|timed| - 1], c, f)
            + if SameComponent(timed[|timed| - 1].leg.component, c) then f(timed[|timed| - 1]) else 0.0
  {
    hide SumOver, SameComponent;
    var n := |timed| - 1;
    if SameComponent(timed[n].leg.component, c) {
      SumOneMore(LegsOf(timed[..n], c), timed[n], f);
    } else {
      assert LegsOf(timed[..n], c) + [] == LegsOf(timed[..n], c);
    }
  }

  lemma {:induction false} LegsAreOf(timed: seq<Timed>, c: Component)
    ensures forall i :: 0 <= i < |LegsOf(timed, c)| ==> SameComponent(LegsOf(timed, c)[i].leg.component, c)
  {
    hide SameComponent;
    if timed != [] { LegsAreOf(timed[..|timed| - 1], c); }
  }

  // ----- Groups and universe

  /** The component days of a date, built from the effects of its activities. */
  ghost predicate AreBuiltDays(days: seq<ComponentDay>, date: Date, components: seq<Component>, timed: seq<Timed>,
                               valued: Component -> bool, bounds: (int, int)) {
    && |days| == |components|
    && forall i ::
         0 <= i < |days|
         ==> IsBuiltDay(days[i], date, components[i], LegsOf(timed, components[i]), valued(components[i]), bounds)
  }

  /** What regrouping adds to one component day is what its effects bring. */
  lemma DayReaches(u: Universe, day: ComponentDay, date: Date, c: Component, timed: seq<Timed>,
                   valued: Component -> bool, boundsOf: DayBounds)
    requires GoesByComponent(u, valued) && u.invested(c)
    requires IsBuiltDay(day, date, c, LegsOf(timed, c), valued(c), boundsOf(date))
    ensures PartCapital(date, Zone(boundsOf))(day) - DailyPart(boundsOf(date))(day)
            == TotalOf(timed, c, Reached(u, boundsOf(date), valued))
  {
    hide IsBuiltDay, PartCapital, SumOver, LegsOf, SameComponent, ExtraAt, CapitalOfDay;
    var legs, bounds := LegsOf(timed, c), boundsOf(date);
    LegsAreOf(timed, c);
    forall i | 0 <= i < |legs| ensures u.invested(legs[i].leg.component) && valued(legs[i].leg.component) == valued(c) {
      assert SameComponent(legs[i].leg.component, c);
    }
    GroupCapitalOfDay(u, day, date, c, legs, valued(c), boundsOf);
    if valued(c) {
      SumEqual(legs, OnDay(u, bounds), Reached(u, bounds, valued));
    } else {
      SumZero(legs, Reached(u, bounds, valued));
    }
  }

  function ExtraOfDay(date: Date, boundsOf: DayBounds): ComponentDay -> real {
    (day: ComponentDay) => PartCapital(date, Zone(boundsOf))(day) - DailyPart(boundsOf(date))(day)
  }

  lemma {:induction false} CapitalAdds(days: seq<ComponentDay>, date: Date, zone: Timezone)
    ensures CapitalOn(date, zone)(days) == SumOver(days, PartCapital(date, zone))
  {
    hide SumOver, PartCapital, CapitalOn;
    if days == [] {
      SumZero(days, PartCapital(date, zone));
      NoCapital(date, zone);
    } else {
      var n := |days| - 1;
      CapitalAdds(days[..n], date, zone);
      CapitalOneMore(days[..n], days[n], date, zone);
      SumLast(days, n, PartCapital(date, zone));
      assert days[..n + 1] == days == days[..n] + [days[n]];
    }
  }

  lemma NoCapital(date: Date, zone: Timezone)
    ensures CapitalOn(date, zone)([]) == 0.0
  {
  }

  lemma UniverseMisses(u: Universe, activities: seq<Activity>, components: seq<Component>, days: seq<ComponentDay>,
                       date: Date,
                       valued: Component -> bool, boundsOf: DayBounds)
    requires IsResolved(u) && GoesByComponent(u, valued) && ListsInvested(u, components)
    requires forall i :: 0 <= i < |activities| ==> IsRecorded(u, activities[i])
    requires AreBuiltDays(days, date, components, TimedLegs(u, activities), valued, boundsOf(date))
    ensures CapitalOn(date, Zone(boundsOf))(days)
         == DailyCapital(days, boundsOf(date)) + SumOver(activities, GapOn(u, boundsOf(date)))
            - SumOver(TimedLegs(u, activities), Lost(u, boundsOf(date), valued))
  {
    hide SumOver, IsBuiltDay, IsResolved, GoesByComponent, IsRecorded, TimedLegs, PartCapital, CapitalOn, SameComponent,
         ExtraAt, CapitalOfDay, GapAt, TotalOf, IsListed;
    var bounds, timed := boundsOf(date), TimedLegs(u, activities);
    var reached := Reached(u, bounds, valued);
    CapitalAdds(days, date, Zone(boundsOf));
    SumMinus(days, PartCapital(date, Zone(boundsOf)), DailyPart(bounds), ExtraOfDay(date, boundsOf));
    forall i | 0 <= i < |days|
      ensures ExtraOfDay(date, boundsOf)(days[i]) == ByComponent(timed, reached)(components[i]) {
      DayReaches(u, days[i], date, components[i], timed, valued, boundsOf);
    }
    SumPairs(days, components, ExtraOfDay(date, boundsOf), ByComponent(timed, reached));
    forall i | 0 <= i < |timed| ensures IsListed(components, timed[i].leg.component) || reached(timed[i]) == 0.0 {
      if !u.invested(timed[i].leg.component) { NothingOutside(u, timed[i], bounds); }
    }
    ComponentsShare(components, timed, reached);
    DayAddsGaps(u, activities, bounds);
    SumPlus(timed, reached, Lost(u, bounds, valued), OnDay(u, bounds));
  }

  lemma NothingOutside(u: Universe, t: Timed, bounds: (int, int))
    requires !u.invested(t.leg.component)
    ensures ExtraAt(u, t, bounds) == 0.0
  {
    hide DietzFlowWeight, Extra;
    ExtraOf(u, t.leg);
  }

  lemma {:induction false} OtherDatesDoNotCount(items: seq<ComponentDay>, date: Date, zone: Timezone)
    ensures CapitalOn(date, zone)(OnDate(items, date)) == CapitalOn(date, zone)(items)
  {
    hide CapitalOn, PartCapital;
    if items != [] {
      var n := |items| - 1;
      OtherDatesDoNotCount(items[..n], date, zone);
      assert items == items[..n] + [items[n]];
      CapitalOneMore(items[..n], items[n], date, zone);
      if items[n].date == date {
        CapitalOneMore(OnDate(items[..n], date), items[n], date, zone);
      } else {
        assert OnDate(items[..n], date) + [] == OnDate(items[..n], date);
        NoPart(items[n], date, zone);
      }
    }
  }

  lemma NoPart(day: ComponentDay, date: Date, zone: Timezone)
    requires day.date != date
    ensures PartCapital(date, zone)(day) == 0.0
  {
  }

  /** Whatever the grouping, the capital of all groups on a date is the daily capital of the
      universe, the weighted gaps of the movements inside it, and less what would have come from
      legs of components whose day has no value. */
  lemma GroupsCountTheUniverse(u: Universe, activities: seq<Activity>, components: seq<Component>,
                               days: seq<ComponentDay>, grouping: GroupBy,
                               keys: seq<string>, date: Date, valued: Component -> bool, boundsOf: DayBounds)
    requires IsResolved(u) && GoesByComponent(u, valued) && ListsInvested(u, components)
    requires forall i :: 0 <= i < |activities| ==> IsRecorded(u, activities[i])
    requires AreBuiltDays(OnDate(days, date), date, components, TimedLegs(u, activities), valued, boundsOf(date))
    requires Distinct(keys) && forall day :: day in days ==> GroupKey(day.component, grouping) in keys
    ensures SumOver(keys, k => CapitalOn(date, Zone(boundsOf))(Items(days, grouping, k)))
         == DailyCapital(OnDate(days, date), boundsOf(date)) + SumOver(activities, GapOn(u, boundsOf(date)))
            - SumOver(TimedLegs(u, activities), Lost(u, boundsOf(date), valued))
  {
    hide SumOver, Items, OnDate, CapitalOn, DailyCapital, AreBuiltDays, TimedLegs, IsRecorded, IsResolved,
         GoesByComponent, ListsInvested;
    GroupsSplitCapital(days, grouping, keys, date, Zone(boundsOf));
    OtherDatesDoNotCount(days, date, Zone(boundsOf));
    UniverseMisses(u, activities, components, OnDate(days, date), date, valued, boundsOf);
  }

  /** On a fully valued day whose movements inside the universe are trades, the groups count
      exactly the capital the universe publishes. */
  lemma TradesRegroupExactly(u: Universe, activities: seq<Activity>, components: seq<Component>,
                             days: seq<ComponentDay>, grouping: GroupBy,
                             keys: seq<string>, date: Date, boundsOf: DayBounds)
    requires IsResolved(u) && GoesByComponent(u, (c: Component) => true) && ListsInvested(u, components)
    requires forall i ::
               0 <= i < |activities|
               ==> IsRecorded(u, activities[i])
                   && (IsInternal(u, activities[i]) ==> activities[i].kind.Buy? || activities[i].kind.Sell?)
    requires AreBuiltDays(OnDate(days, date), date, components, TimedLegs(u, activities), (c: Component) => true,
                          boundsOf(date))
    requires Distinct(keys) && forall day :: day in days ==> GroupKey(day.component, grouping) in keys
    ensures SumOver(keys, k => CapitalOn(date, Zone(boundsOf))(Items(days, grouping, k)))
            == DailyCapital(OnDate(days, date), boundsOf(date))
  {
    hide SumOver, Items, OnDate, CapitalOn, DailyCapital, AreBuiltDays, TimedLegs, IsRecorded, IsResolved,
         GoesByComponent, ListsInvested, IsInternal;
    var bounds, timed := boundsOf(date), TimedLegs(u, activities);
    GroupsCountTheUniverse(u, activities, components, days, grouping, keys, date, (c: Component) => true, boundsOf);
    forall i | 0 <= i < |activities| ensures GapOn(u, bounds)(activities[i]) == 0.0 {
      NoGap(u, activities[i], bounds);
    }
    SumZero(activities, GapOn(u, bounds));
    SumZero(timed, Lost(u, bounds, (c: Component) => true));
  }

  lemma NoGap(u: Universe, a: Activity, bounds: (int, int))
    requires IsInternal(u, a) ==> a.kind.Buy? || a.kind.Sell?
    ensures GapAt(u, a, bounds) == 0.0
  {
    hide IsInternal, DietzFlowWeight;
  }
}
