/** The capital of one day: built from the classified effects of its activities, counted by the
    investment universe, and counted again by the groups of any grouping. */
module DayCapital {
  import opened AnalysisModel
  import opened CapitalLaws
  import opened Classifier
  import opened DailyReturns
  import opened MoneyRounding
  import opened ReturnFold
  import opened Sorting
  import opened Sums

  // ----- Building a component day

  /** A classified effect and the instant of its activity. */
  datatype Timed = Timed(leg: Classified, at: int)

  function UnitsOf(x: real): int {
    HalfEven(x * MONEY_SCALE as real)
  }

  /** Amounts in Money units. */
  function InUnits(): real -> real {
    (x: real) => UnitsOf(x) as real
  }

  lemma UnitsAreOdd()
    ensures IsOdd(InUnits())
  {
    forall x: real ensures InUnits()(-x) == -InUnits()(x) {
      HalfEvenIsOdd(x * MONEY_SCALE as real);
    }
  }

  function FlowAt(x: Option<real>, at: int): Option<CapitalFlow> {
    match x case None => None case Some(v) => Some(CapitalFlow(UnitsOf(v), at))
  }

  predicate IsKept(c: Classified) {
    c.bucket.Some? || c.earns.Some? || c.dietz.Some? || c.potential.Some?
  }

  function AttributedFrom(t: Timed): Attributed {
    Attributed(FlowAt(t.leg.dietz, t.at), if t.leg.dietz.Some? then None else FlowAt(t.leg.potential, t.at))
  }

  /** The attributed effects a component day keeps. */
  function AttributedOf(legs: seq<Timed>): seq<Attributed> {
    if legs == [] then []
    else AttributedOf(legs[..|legs| - 1])
         + if IsKept(legs[|legs| - 1].leg) then [AttributedFrom(legs[|legs| - 1])] else []
  }

  /** The capital flows of the universe. */
  function DietzFlows(legs: seq<Timed>): seq<CapitalFlow> {
    if legs == [] then []
    else
      var t := legs[|legs| - 1];
      DietzFlows(legs[..|legs| - 1]) + match FlowAt(t.leg.dietz, t.at) case None => [] case Some(flow) => [flow]
  }

  function WeightedUnits(t: Timed, bounds: (int, int)): int {
    if t.leg.dietz.None? then 0 else UnitsOf(Times(t.leg.dietz.value, DietzFlowWeight(t.at, bounds)))
  }

  /** The weighted flows, each at the Money boundary. */
  function DietzFlow(legs: seq<Timed>, bounds: (int, int)): int {
    if legs == [] then 0 else DietzFlow(legs[..|legs| - 1], bounds) + WeightedUnits(legs[|legs| - 1], bounds)
  }

  /** The part of a component day's loop over its effects that collects capital. */
  method CollectCapital(legs: seq<Timed>, bounds: (int, int))
    returns (flows: seq<CapitalFlow>, attributed: seq<Attributed>, dietzFlow: int)
    ensures flows == DietzFlows(legs) && attributed == AttributedOf(legs) && dietzFlow == DietzFlow(legs, bounds)
  {
    hide UnitsOf, DietzFlowWeight, Times;
    flows, attributed, dietzFlow := [], [], 0;
    for i := 0 to |legs|
      invariant flows == DietzFlows(legs[..i]) && attributed == AttributedOf(legs[..i])
                && dietzFlow == DietzFlow(legs[..i], bounds)
    {
      assert legs[..i + 1][..i] == legs[..i];
      var leg, at := legs[i].leg, legs[i].at;
      var flow: Option<CapitalFlow> := None;
      var potential: Option<CapitalFlow> := None;
      if leg.dietz.Some? {
        flow := Some(CapitalFlow(UnitsOf(leg.dietz.value), at));
        flows := flows + [flow.value];
        dietzFlow := dietzFlow + UnitsOf(Times(leg.dietz.value, DietzFlowWeight(at, bounds)));
      }
      if leg.potential.Some? && leg.dietz.None? {
        potential := Some(CapitalFlow(UnitsOf(leg.potential.value), at));
      }
      if leg.bucket.Some? || leg.earns.Some? || leg.dietz.Some? || potential.Some? {
        attributed := attributed + [Attributed(flow, potential)];
      }
    }
    assert legs[..|legs|] == legs;
  }

  /** A component day of the investment universe. One whose value is not known keeps no effect.
      Price and FX are attributed as well, without a flow. */
  ghost predicate IsBuiltDay(day: ComponentDay, date: Date, component: Component, legs: seq<Timed>, valued: bool,
                             bounds: (int, int)) {
    && day.date == date && day.component == component && (IsSet(day.beginning) || day.beginning.units == 0)
    && if !valued then day.flows == [] && day.attributed == [] && day.investedCapital.None?
       else
         && day.flows == DietzFlows(legs) && AttributedOf(legs) <= day.attributed
         && (forall i :: |AttributedOf(legs)| <= i < |day.attributed| ==> day.attributed[i] == Attributed(None, None))
         && (day.investedCapital.Some? ==> day.investedCapital.value == day.beginning.units + DietzFlow(legs, bounds))
  }

  // ----- What regrouping adds to a component day

  /** What a group counts for a leg beyond what the universe counts. */
  function Extra(u: Universe): Classified -> real {
    (c: Classified) => Keeps(u, InUnits())(c) - Counts(u, InUnits())(c)
  }

  function ExtraAt(u: Universe, t: Timed, bounds: (int, int)): real {
    Times(Extra(u)(t.leg), DietzFlowWeight(t.at, bounds))
  }

  function OnDay(u: Universe, bounds: (int, int)): Timed -> real {
    (t: Timed) => ExtraAt(u, t, bounds)
  }

  lemma {:induction false} FlowsConcat(x: seq<Attributed>, y: seq<Attributed>)
    ensures FlowsOf(x + y) == FlowsOf(x) + FlowsOf(y)
  {
    if y == [] {
      assert x + y == x && FlowsOf(x) + [] == FlowsOf(x);
    } else {
      var n := |y| - 1;
      assert (x + y)[..|x + y| - 1] == x + y[..n];
      FlowsConcat(x, y[..n]);
    }
  }

  lemma {:induction false} MarksHaveNoFlow(marks: seq<Attributed>)
    requires forall i :: 0 <= i < |marks| ==> marks[i] == Attributed(None, None)
    ensures FlowsOf(marks) == []
  {
    if marks != [] { MarksHaveNoFlow(marks[..|marks| - 1]); }
  }

  lemma OneFlow(flow: CapitalFlow, bounds: (int, int))
    ensures WeightedFlows([flow], bounds) == Times(flow.units as real, DietzFlowWeight(flow.at, bounds))
  {
    hide DietzFlowWeight;
    assert [flow][..0] == [];
  }

  /** What one leg adds to the flows of its group and of the universe. */
  lemma LegFlows(u: Universe, t: Timed, bounds: (int, int))
    requires u.invested(t.leg.component)
    ensures var kept := if IsKept(t.leg) then FlowsOf([AttributedFrom(t)]) else [];
            var counted := match FlowAt(t.leg.dietz, t.at) case None => [] case Some(flow) => [flow];
            WeightedFlows(kept, bounds) == WeightedFlows(counted, bounds) + ExtraAt(u, t, bounds)
  {
    hide DietzFlowWeight, UnitsOf, Extra;
    ExtraOf(u, t.leg);
    assert [AttributedFrom(t)][..0] == [];
    var flow := FlowOf(AttributedFrom(t));
    assert FlowsOf([AttributedFrom(t)]) == match flow case Some(f) => [f] case None => [];
    NoFlowsWeigh(bounds);
    if flow.Some? {
      OneFlow(flow.value, bounds);
    }
  }

  lemma ExtraOf(u: Universe, c: Classified)
    ensures Extra(u)(c)
            == if u.invested(c.component) && c.dietz.None? && c.potential.Some? then UnitsOf(c.potential.value) as real
            else 0.0
  {
    hide UnitsOf;
    assert Keeps(u, InUnits())(c)
           == if u.invested(c.component) then Flow(InUnits(), if c.dietz.Some? then c.dietz else c.potential) else 0.0;
    assert Counts(u, InUnits())(c) == if u.invested(c.component) then Flow(InUnits(), c.dietz) else 0.0;
  }

  /** The kept flows of a day weigh more than those of the universe by what its legs add. */
  lemma {:induction false} KeptFlowsWeigh(u: Universe, legs: seq<Timed>, bounds: (int, int))
    requires forall i :: 0 <= i < |legs| ==> u.invested(legs[i].leg.component)
    ensures WeightedFlows(FlowsOf(AttributedOf(legs)), bounds)
            == WeightedFlows(DietzFlows(legs), bounds) + SumOver(legs, OnDay(u, bounds))
  {
    hide WeightedFlows, FlowsOf, SumOver, ExtraAt, AttributedFrom, FlowAt, IsKept;
    if legs == [] {
      NoFlowsWeigh(bounds);
      SumZero(legs, OnDay(u, bounds));
    } else {
      var n := |legs| - 1;
      var front, t := legs[..n], legs[n];
      KeptFlowsWeigh(u, front, bounds);
      LegFlows(u, t, bounds);
      SumLast(legs, n, OnDay(u, bounds));
      assert legs[..n + 1] == legs;
      var more: seq<Attributed> := if IsKept(t.leg) then [AttributedFrom(t)] else [];
      NoFlowsWeigh(bounds);
      FlowsConcat(AttributedOf(front), more);
      WeightedConcat(FlowsOf(AttributedOf(front)), FlowsOf(more), bounds);
      var counted := match FlowAt(t.leg.dietz, t.at) case None => [] case Some(flow) => [flow];
      WeightedConcat(DietzFlows(front), counted, bounds);
    }
  }

  lemma NoFlowsWeigh(bounds: (int, int))
    ensures FlowsOf([]) == [] && WeightedFlows([], bounds) == 0.0
  {
  }

  lemma {:induction false} NothingAttributed(legs: seq<Timed>, bounds: (int, int))
    requires AttributedOf(legs) == []
    ensures DietzFlows(legs) == [] && DietzFlow(legs, bounds) == 0
  {
    hide DietzFlowWeight, UnitsOf;
    if legs != [] { NothingAttributed(legs[..|legs| - 1], bounds); }
  }

  lemma PartIs(day: ComponentDay, zone: DayBounds)
    ensures PartCapital(day.date, Zone(zone))(day)
         == (if IsLegacy(day) then day.investedCapital.value else day.beginning.units) as real
             + WeightedFlows(FlowsOf(day.attributed), zone(day.date))
  {
    hide WeightedFlows, FlowsOf;
    assert [] + FlowsOf(day.attributed) == FlowsOf(day.attributed);
  }

  /** The capital a group counts for a component day. */
  lemma GroupCapitalOfDay(u: Universe, day: ComponentDay, date: Date, component: Component, legs: seq<Timed>,
                          valued: bool, boundsOf: DayBounds)
    requires IsBuiltDay(day, date, component, legs, valued, boundsOf(date))
    requires forall i :: 0 <= i < |legs| ==> u.invested(legs[i].leg.component)
    ensures PartCapital(date, Zone(boundsOf))(day)
         == CapitalOfDay(day, boundsOf(date)) + if valued then SumOver(legs, OnDay(u, boundsOf(date))) else 0.0
  {
    hide WeightedFlows, SumOver, OnDay, AttributedOf, DietzFlows, DietzFlow, FlowsOf, PartCapital;
    var bounds := boundsOf(date);
    NoFlowsWeigh(bounds);
    PartIs(day, boundsOf);
    if valued {
      KeptFlowsWeigh(u, legs, bounds);
      var n := |AttributedOf(legs)|;
      assert day.attributed == AttributedOf(legs) + day.attributed[n..];
      MarksHaveNoFlow(day.attributed[n..]);
      FlowsConcat(AttributedOf(legs), day.attributed[n..]);
      assert FlowsOf(AttributedOf(legs)) + [] == FlowsOf(AttributedOf(legs));
      if day.attributed == [] { NothingAttributed(legs, bounds); }
    }
  }
}
