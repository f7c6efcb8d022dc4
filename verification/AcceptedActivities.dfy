/** The certificate accepts the days of a household whose internal movements are trades and
    conversions at known rates: their neutral legs cancel on every date. */
module AcceptedActivities {
  import opened AcceptedDays
  import opened AnalysisModel
  import opened CapitalLaws
  import opened Classifier
  import opened ClassifierLaws
  import opened Sorting
  import opened Sums
  import B = Bridges
  import ConversionUndo
  import D = ComponentDays
  import P = AttributionProof
  import TransferLaws

  // ----- Neutral legs of classified activities

  /** The classified effects of an activity of a date. */
  datatype Dated = Dated(date: Date, legs: seq<Classified>)

  /** What the check counts as neutral. */
  function NeutralKnown(): Classified -> real {
    (c: Classified) => if c.neutral && c.bucket.None? && c.amount.Some? then c.amount.value else 0.0
  }

  /** The listed component with the same key. */
  function Home(components: seq<Component>, c: Component): Component {
    if components == [] then c else if SameComponent(c, components[0]) then components[0] else Home(components[1..], c)
  }

  /** No component is listed twice. */
  ghost predicate AreDistinct(components: seq<Component>) {
    forall i, j :: 0 <= i < j < |components| ==> !SameComponent(components[i], components[j])
  }

  ghost predicate NeutralsAreListed(components: seq<Component>, legs: seq<Classified>) {
    forall i :: 0 <= i < |legs| && legs[i].neutral ==> IsListed(components, legs[i].component)
  }

  /** A classified effect as the check reads it. */
  function AsLeg(components: seq<Component>, date: Date, c: Classified): P.Leg {
    P.Leg(date, Home(components, c.component), c.amount.Some?, c.bucket.Some?, c.neutral,
          if c.amount.Some? then c.amount.value else 0.0)
  }

  function AsLegs(components: seq<Component>, date: Date, legs: seq<Classified>): seq<P.Leg> {
    if legs == [] then []
    else AsLegs(components, date, legs[..|legs| - 1]) + [AsLeg(components, date, legs[|legs| - 1])]
  }

  function ProofLegs(components: seq<Component>, dated: seq<Dated>): seq<P.Leg> {
    if dated == [] then []
    else
      var d := dated[|dated| - 1];
      ProofLegs(components, dated[..|dated| - 1]) + AsLegs(components, d.date, d.legs)
  }

  /** The effects of one component among those of an activity, and among those of a date. */
  function OfComponent(legs: seq<Classified>, c: Component): seq<Classified> {
    if legs == [] then []
    else OfComponent(legs[..|legs| - 1], c)
         + if SameComponent(legs[|legs| - 1].component, c) then [legs[|legs| - 1]] else []
  }

  function Selected(dated: seq<Dated>, date: Date, c: Component): seq<Classified> {
    if dated == [] then []
    else
      var d := dated[|dated| - 1];
      Selected(dated[..|dated| - 1], date, c) + if d.date == date then OfComponent(d.legs, c) else []
  }

  /** The bridges' effects of a component day are its classified effects. */
  ghost predicate Reads(effects: seq<B.Effect>, legs: seq<Classified>) {
    && |effects| == |legs|
    && forall i :: 0 <= i < |effects| ==>
         && effects[i].known == legs[i].amount.Some? && (effects[i].known ==> effects[i].amount == legs[i].amount.value)
         && effects[i].bucket == legs[i].bucket && effects[i].neutral == legs[i].neutral
  }

  lemma {:induction false} HomeIsSame(components: seq<Component>, c: Component)
    requires IsListed(components, c)
    ensures SameComponent(c, Home(components, c)) && Home(components, c) in components
  {
    if !SameComponent(c, components[0]) {
      var j :| 0 <= j < |components| && SameComponent(c, components[j]);
      assert components[1..][j - 1] == components[j];
      HomeIsSame(components[1..], c);
    }
  }

  lemma HomeIsThere(components: seq<Component>, c: Component, d: Component)
    requires AreDistinct(components) && IsListed(components, c) && d in components
    ensures Home(components, c) == d <==> SameComponent(c, d)
  {
    hide SameComponent, Home;
    HomeIsSame(components, c);
    if SameComponent(c, d) {
      var i :| 0 <= i < |components| && components[i] == d;
      var j :| 0 <= j < |components| && components[j] == Home(components, c);
      SameIsShared(c, d, Home(components, c));
    }
  }

  lemma ListedOnce(components: seq<Component>)
    requires AreDistinct(components)
    ensures Distinct(components)
  {
    forall i, j | 0 <= i < j < |components| ensures components[i] != components[j] {
      assert !SameComponent(components[i], components[j]);
    }
  }

  // ----- The check counts the neutral legs of a component's day

  /** Legs within the period, read by the check. */
  ghost predicate IsProofInput(input: P.Input, dated: seq<Dated>) {
    && AreDistinct(input.components) && input.legs == ProofLegs(input.components, dated)
    && forall i :: 0 <= i < |dated| ==> NeutralsAreListed(input.components, dated[i].legs)
  }

  lemma LegCounts(input: P.Input, date: Date, d: Date, leg: Classified, c: Component)
    requires AreDistinct(input.components) && c in input.components && input.from <= date <= input.to
    requires leg.neutral ==> IsListed(input.components, leg.component)
    ensures P.LegAmount(input, date, c)(AsLeg(input.components, d, leg))
         == if d == date && SameComponent(leg.component, c) then NeutralKnown()(leg) else 0.0
  {
    hide SameComponent, Home, IsListed, AreDistinct;
    if leg.neutral { HomeIsThere(input.components, leg.component, c); }
  }

  lemma {:induction false} LegsCount(input: P.Input, date: Date, d: Date, legs: seq<Classified>, c: Component)
    requires AreDistinct(input.components) && c in input.components && input.from <= date <= input.to
    requires NeutralsAreListed(input.components, legs)
    ensures SumOver(AsLegs(input.components, d, legs), P.LegAmount(input, date, c))
         == if d == date then SumOver(OfComponent(legs, c), NeutralKnown()) else 0.0
  {
    hide SumOver, SameComponent, IsListed, AreDistinct, AsLeg, P.IsNeutral;
    var f := P.LegAmount(input, date, c);
    if legs == [] {
      SumZero([], f);
      SumZero([], NeutralKnown());
    } else {
      var n := |legs| - 1;
      LegsCount(input, date, d, legs[..n], c);
      LegCounts(input, date, d, legs[n], c);
      SumOneMore(AsLegs(input.components, d, legs[..n]), AsLeg(input.components, d, legs[n]), f);
      if SameComponent(legs[n].component, c) {
        SumOneMore(OfComponent(legs[..n], c), legs[n], NeutralKnown());
      } else {
        assert OfComponent(legs[..n], c) + [] == OfComponent(legs[..n], c);
      }
    }
  }

  lemma {:induction false} DatedCount(input: P.Input, dated: seq<Dated>, date: Date, c: Component)
    requires AreDistinct(input.components) && c in input.components && input.from <= date <= input.to
    requires forall i :: 0 <= i < |dated| ==> NeutralsAreListed(input.components, dated[i].legs)
    ensures SumOver(ProofLegs(input.components, dated), P.LegAmount(input, date, c))
            == SumOver(Selected(dated, date, c), NeutralKnown())
  {
    hide SumOver, AsLegs, OfComponent, AreDistinct, NeutralsAreListed, P.IsNeutral;
    var f := P.LegAmount(input, date, c);
    if dated == [] {
      SumZero([], f);
      SumZero([], NeutralKnown());
    } else {
      var n := |dated| - 1;
      var d := dated[n];
      DatedCount(input, dated[..n], date, c);
      LegsCount(input, date, d.date, d.legs, c);
      SumAppend(ProofLegs(input.components, dated[..n]), AsLegs(input.components, d.date, d.legs), f);
      if d.date == date {
        SumAppend(Selected(dated[..n], date, c), OfComponent(d.legs, c), NeutralKnown());
      } else {
        assert Selected(dated[..n], date, c) + [] == Selected(dated[..n], date, c);
      }
    }
  }

  /** A day whose effects are its classified ones is a kernel day. */
  lemma ClassifiedDayIsKernelDay(input: P.Input, dated: seq<Dated>, day: ComponentDay, w: Working, places: nat)
    requires IsProofInput(input, dated) && day.component in input.components && input.from <= day.date <= input.to
    requires IsAttributed(input, day, w, places) && Reads(w.effects, Selected(dated, day.date, day.component))
    ensures IsKernelDay(input, day, w, places)
  {
    hide SumOver, Selected, ProofLegs, AreDistinct, NeutralsAreListed, IsAttributed, P.IsNeutral;
    DatedCount(input, dated, day.date, day.component);
    SumPairs(w.effects, Selected(dated, day.date, day.component), D.Neutral(), NeutralKnown());
  }

  // ----- Neutral legs cancel over the components

  function NeutralOfDate(input: P.Input, date: Date): P.Leg -> real {
    (leg: P.Leg) => if P.IsNeutral(input, leg) && leg.date == date then leg.amount else 0.0
  }

  function AtComponent(leg: P.Leg, x: real): Component -> real {
    (c: Component) => if leg.component == c then x else 0.0
  }

  function NeutralSums(input: P.Input, legs: seq<P.Leg>, date: Date): Component -> real {
    (c: Component) => NeutralSum(input, legs, date, c)
  }

  function NeutralSum(input: P.Input, legs: seq<P.Leg>, date: Date, c: Component): real {
    SumOver(legs, P.LegAmount(input, date, c))
  }

  /** Whichever component a neutral leg belongs to, it counts once. */
  lemma {:induction false} ComponentsShareLegs(input: P.Input, legs: seq<P.Leg>, date: Date)
    requires Distinct(input.components)
    requires forall i :: 0 <= i < |legs| && P.IsNeutral(input, legs[i]) ==> legs[i].component in input.components
    ensures SumOver(input.components, NeutralSums(input, legs, date)) == SumOver(legs, NeutralOfDate(input, date))
  {
    hide SumOver, P.IsNeutral;
    if legs == [] {
      forall c ensures NeutralSum(input, [], date, c) == 0.0 { SumZero([], P.LegAmount(input, date, c)); }
      SumZero(input.components, NeutralSums(input, legs, date));
      SumZero(legs, NeutralOfDate(input, date));
    } else {
      var n := |legs| - 1;
      var leg := legs[n];
      var x := NeutralOfDate(input, date)(leg);
      ComponentsShareLegs(input, legs[..n], date);
      assert legs[..n + 1] == legs;
      SumLast(legs, n, NeutralOfDate(input, date));
      forall c ensures NeutralSum(input, legs, date, c)
      == NeutralSum(input, legs[..n], date, c) + AtComponent(leg, x)(c) {
        SumLast(legs, n, P.LegAmount(input, date, c));
      }
      SumPlus(input.components, NeutralSums(input, legs[..n], date), AtComponent(leg, x),
              NeutralSums(input, legs, date));
      if leg.component in input.components {
        SumSingle(input.components, AtComponent(leg, x), leg.component);
      } else {
        SumZero(input.components, AtComponent(leg, x));
      }
    }
  }

  /** The neutral legs of every activity cancel. */
  ghost predicate Balances(legs: seq<Classified>) {
    SumOver(legs, NeutralKnown()) == 0.0
  }

  lemma {:induction false} LegsOfDate(input: P.Input, date: Date, d: Date, legs: seq<Classified>)
    requires input.from <= date <= input.to && NeutralsAreListed(input.components, legs)
    ensures SumOver(AsLegs(input.components, d, legs), NeutralOfDate(input, date))
            == if d == date then SumOver(legs, NeutralKnown()) else 0.0
    ensures forall i ::
              0 <= i < |AsLegs(input.components, d, legs)| && P.IsNeutral(input, AsLegs(input.components, d, legs)[i])
              ==> AsLegs(input.components, d, legs)[i].component in input.components
  {
    hide SumOver, IsListed, Home;
    if legs == [] {
      SumZero([], NeutralOfDate(input, date));
      SumZero([], NeutralKnown());
    } else {
      var n := |legs| - 1;
      LegsOfDate(input, date, d, legs[..n]);
      SumOneMore(AsLegs(input.components, d, legs[..n]), AsLeg(input.components, d, legs[n]),
                 NeutralOfDate(input, date));
      SumLast(legs, n, NeutralKnown());
      assert legs[..n + 1] == legs;
      if legs[n].neutral { HomeIsSame(input.components, legs[n].component); }
    }
  }

  lemma {:induction false} DatedBalance(input: P.Input, dated: seq<Dated>, date: Date)
    requires input.from <= date <= input.to
    requires forall i ::
               0 <= i < |dated| ==> NeutralsAreListed(input.components, dated[i].legs) && Balances(dated[i].legs)
    ensures SumOver(ProofLegs(input.components, dated), NeutralOfDate(input, date)) == 0.0
    ensures forall i ::
              0 <= i < |ProofLegs(input.components, dated)| && P.IsNeutral(input, ProofLegs(input.components, dated)[i])
              ==> ProofLegs(input.components, dated)[i].component in input.components
  {
    hide SumOver, AsLegs, NeutralsAreListed, P.IsNeutral;
    if dated == [] {
      SumZero([], NeutralOfDate(input, date));
    } else {
      var n := |dated| - 1;
      DatedBalance(input, dated[..n], date);
      LegsOfDate(input, date, dated[n].date, dated[n].legs);
      SumAppend(ProofLegs(input.components, dated[..n]), AsLegs(input.components, dated[n].date, dated[n].legs),
                NeutralOfDate(input, date));
    }
  }

  lemma BalancedDatesCancel(input: P.Input, dated: seq<Dated>, date: Date)
    requires IsProofInput(input, dated) && input.from <= date <= input.to
    requires forall i :: 0 <= i < |dated| ==> Balances(dated[i].legs)
    ensures NeutralsCancel(input, date)
  {
    hide SumOver, ProofLegs, NeutralsAreListed, P.IsNeutral, Balances, AreDistinct;
    ListedOnce(input.components);
    DatedBalance(input, dated, date);
    ComponentsShareLegs(input, input.legs, date);
    SumEqual(input.components, NeutralSums(input, input.legs, date), NeutralsOf(input, date));
  }

  // ----- Which activities balance

  ghost predicate NeutralsInside(u: Universe, legs: seq<Classified>) {
    forall i :: 0 <= i < |legs| && legs[i].neutral ==> u.inside(legs[i].component)
  }

  lemma {:induction false} NeutralsAreInside(u: Universe, a: Activity, endpoints: seq<Component>, effects: seq<Effect>)
    ensures NeutralsInside(u, Legs(u, a, endpoints, effects))
  {
    hide Leg;
    if effects != [] {
      NeutralsAreInside(u, a, endpoints, effects[..|effects| - 1]);
      LegIsInside(u, a, endpoints, effects[|effects| - 1]);
    }
  }

  lemma LegIsInside(u: Universe, a: Activity, endpoints: seq<Component>, e: Effect)
    ensures NeutralsInside(u, Leg(u, a, endpoints, e))
  {
    hide AssetBucketFor, EffectAmount, AssociatedAmount, ReturnAssociation, PotentialCapital, DietzCapital, AllIn,
         CountIn, MapSign;
  }

  lemma SpreadKeepsInside(u: Universe, legs: seq<Classified>)
    requires NeutralsInside(u, legs)
    ensures NeutralsInside(u, WithSpread(u, legs))
  {
    hide SumOver, HasSpread;
    if HasSpread(legs) { SpreadHasReceiver(legs); }
  }

  /** Whatever is neutral is a component of the universe. */
  lemma ClassifiedIsListed(u: Universe, a: Activity, components: seq<Component>)
    requires forall c :: u.inside(c) ==> IsListed(components, c)
    ensures NeutralsAreListed(components, Classify(u, a))
  {
    hide Legs, Endpoints, WithSpread, AllIn, IsListed;
    NeutralsAreInside(u, a, Endpoints(u, a.effects), a.effects);
    SpreadKeepsInside(u, Legs(u, a, Endpoints(u, a.effects), a.effects));
  }

  /** The fee of a trade is recorded as one. */
  predicate FeesAreFees(a: Activity) {
    forall i :: 0 <= i < |a.effects| && a.effects[i].role.FeeRole? ==> a.effects[i].classification.FeeClass?
  }

  lemma TradeLegNeutral(u: Universe, a: Activity, e: Effect)
    requires (a.kind.Buy? || a.kind.Sell?) && a.reason.PrincipalReason? && IsRecorded(u, a) && FeesAreFees(a)
             && |a.effects| >= 2
    requires AllIn(Endpoints(u, a.effects), u.inside) && e in a.effects
             && u.componentOf(e).value.account in u.liabilities
    ensures SumOver(Leg(u, a, Endpoints(u, a.effects), e), NeutralKnown())
         == Scaled(Side(), Flow(TransferLaws.Exactly(), Converted(u, a.trade.value.gross, a.at)))(e)
  {
    hide Endpoints, CountIn, Converted, SumOver, DietzCapital, PotentialCapital, Times, Projected, AllIn, IsRecorded;
    var endpoints := Endpoints(u, a.effects);
    var i :| 0 <= i < |a.effects| && a.effects[i] == e;
    TradeEndpoints(u, a, i);
    var c := u.componentOf(e).value;
    var gross := Converted(u, a.trade.value.gross, a.at);
    var worth := Flow(TransferLaws.Exactly(), gross);
    TimesSide(worth);
    assert Scaled(Side(), worth)(e) == Times(Side()(e), worth);
    var leg := Physical(u, a, endpoints, e, c);
    var projected := Projected(u, a, e, c.account, u.componentOf(e));
    ProjectedIsNotNeutral(u, a, e, c.account, u.componentOf(e));
    SumOfOne(leg, NeutralKnown());
    SumAppend([leg], projected, NeutralKnown());
    assert Leg(u, a, endpoints, e) == [leg] + projected;
    if e.role.FeeRole? {
      assert leg.bucket == Some(Fee);
    } else {
      assert leg.bucket.None? && leg.neutral && EffectAmount(u, a, e, c) == gross;
    }
  }

  lemma ProjectedIsNotNeutral(u: Universe, a: Activity, e: Effect, account: string, c: Option<Component>)
    ensures SumOver(Projected(u, a, e, account, c), NeutralKnown()) == 0.0
  {
    hide ReturnAssociation, AssociatedAmount, MapSign, SumOver;
    SumZero(Projected(u, a, e, account, c), NeutralKnown());
  }

  lemma TradeEndpoints(u: Universe, a: Activity, i: nat)
    requires (a.kind.Buy? || a.kind.Sell?) && IsRecorded(u, a) && |a.effects| >= 2 && i < |a.effects|
    requires AllIn(Endpoints(u, a.effects), u.inside)
    ensures a.trade.Some? && u.componentOf(a.effects[i]).Some? && u.inside(u.componentOf(a.effects[i]).value)
            && !a.effects[i].target.HoldingCost?
    ensures IsFee(a.effects[i]) || IsTradeLeg(a, a.effects[i])
    ensures CountIn(Endpoints(u, a.effects), u.inside) == |Endpoints(u, a.effects)| >= 2
  {
    hide Endpoints, CountIn, SumOver;
    assert a.effects[i] in a.effects;
    EndpointIsListed(u, a.effects, i);
    AllInIsCount(Endpoints(u, a.effects), u.inside);
    OneEach(u, a.effects);
  }

  lemma {:induction false} OneEach(u: Universe, effects: seq<Effect>)
    requires forall e :: e in effects ==> u.componentOf(e).Some? && !e.target.HoldingCost?
    ensures |Endpoints(u, effects)| == |effects|
  {
    if effects != [] {
      assert effects[0] in effects;
      OneEach(u, effects[1..]);
    }
  }

  lemma {:induction false} TradeLegsNeutral(u: Universe, a: Activity, effects: seq<Effect>, f: Effect -> real)
    requires forall e :: e in effects ==> SumOver(Leg(u, a, Endpoints(u, a.effects), e), NeutralKnown()) == f(e)
    ensures SumOver(Legs(u, a, Endpoints(u, a.effects), effects), NeutralKnown()) == SumOver(effects, f)
  {
    hide Leg, Endpoints, SumOver;
    if effects == [] {
      SumZero([], NeutralKnown());
      SumZero([], f);
    } else {
      var n := |effects| - 1;
      TradeLegsNeutral(u, a, effects[..n], f);
      SumAppend(Legs(u, a, Endpoints(u, a.effects), effects[..n]), Leg(u, a, Endpoints(u, a.effects), effects[n]),
                NeutralKnown());
      SumLast(effects, n, f);
      assert effects[..n + 1] == effects;
    }
  }

  /** A trade inside the universe, at a known rate or not. */
  ghost predicate IsTradeInside(u: Universe, a: Activity) {
    && (a.kind.Buy? || a.kind.Sell?) && a.reason.PrincipalReason? && IsRecorded(u, a) && FeesAreFees(a)
    && |a.effects| >= 2
    && AllIn(Endpoints(u, a.effects), u.inside)
    && forall e :: e in a.effects ==> u.componentOf(e).value.account in u.liabilities
  }

  lemma TradeBalances(u: Universe, a: Activity)
    requires IsTradeInside(u, a)
    ensures Balances(Classify(u, a))
  {
    hide SumOver, Legs, Leg, Endpoints, AllIn, Side, Scaled, FeesAreFees;
    var worth := Flow(TransferLaws.Exactly(), Converted(u, a.trade.value.gross, a.at));
    forall e | e in a.effects
      ensures SumOver(Leg(u, a, Endpoints(u, a.effects), e), NeutralKnown()) == Scaled(Side(), worth)(e) {
      TradeLegNeutral(u, a, e);
    }
    TradeLegsNeutral(u, a, a.effects, Scaled(Side(), worth));
    SumScaled(a.effects, Side(), worth);
    TimesSide(worth);
  }

  /** A conversion inside the universe whose spread is told apart. */
  ghost predicate IsConversionInside(u: Universe, a: Activity) {
    a.kind.FXConversion? && IsRecorded(u, a) && Tells(u, a)
  }

  lemma ConversionBalances(u: Universe, a: Activity)
    requires IsConversionInside(u, a)
    ensures Balances(Classify(u, a))
  {
    hide SumOver, Legs, Endpoints, AllIn, IsRecorded, HasSpread, WithSpread;
    ConversionUndo.LegsRead(u, a);
    var legs := BareLegs(u, a);
    LegsAreBare(u, a, Endpoints(u, a.effects), a.effects);
    SpreadKeepsTotals(u, legs, Residual);
    SpreadIsCash(u, legs);
    SumEqual(WithSpread(u, legs), NeutralKnown(), NeutralAmount());
  }

  lemma SpreadIsCash(u: Universe, legs: seq<Classified>)
    requires HasSpread(legs) && NeutralIsBare(legs) && forall i :: 0 <= i < |legs| ==> legs[i].cash
    ensures var told := WithSpread(u, legs);
            forall i :: 0 <= i < |told| && told[i].neutral ==> told[i].cash && told[i].bucket.None?
  {
    hide SumOver, NeutralLegs, AllKnown;
    SpreadHasReceiver(legs);
  }

  /** A conversion of known worth on both sides tells its spread. */
  lemma KnownConversionIsTold(u: Universe, a: Activity)
    requires a.kind.FXConversion? && IsRecorded(u, a) && TransferLaws.InOrder(a) && Separates(u, a)
    requires ConversionUndo.Worth(u, a, 0).Some? && ConversionUndo.Worth(u, a, 1).Some?
    ensures IsConversionInside(u, a)
  {
    hide IsRecorded, Tells, Separates, ConversionUndo.Worth;
    ConversionUndo.SpreadOfRecorded(u, a);
  }

  /** An activity without neutral legs, a trade inside the universe, or a conversion inside it that
      tells its spread. */
  ghost predicate Settles(u: Universe, a: Activity) {
    || (forall i :: 0 <= i < |Classify(u, a)| ==> !Classify(u, a)[i].neutral)
    || IsTradeInside(u, a) || IsConversionInside(u, a)
  }

  lemma SettledBalances(u: Universe, a: Activity)
    requires Settles(u, a)
    ensures Balances(Classify(u, a))
  {
    hide SumOver, Classify, IsTradeInside, IsConversionInside;
    if IsTradeInside(u, a) {
      TradeBalances(u, a);
    } else if IsConversionInside(u, a) {
      ConversionBalances(u, a);
    } else {
      SumZero(Classify(u, a), NeutralKnown());
    }
  }

  // ----- Acceptance

  /** An activity of a date and the universe that classifies it. */
  datatype Happened = Happened(date: Date, universe: Universe, activity: Activity)

  function DatedFrom(happened: seq<Happened>): seq<Dated> {
    seq(|happened|,
        i requires 0 <= i < |happened| => Dated(happened[i].date, Classify(happened[i].universe, happened[i].activity)))
  }

  ghost predicate IsHousehold(input: P.Input, happened: seq<Happened>) {
    forall i :: 0 <= i < |happened| ==>
      Settles(happened[i].universe, happened[i].activity)
      && forall c :: happened[i].universe.inside(c) ==> IsListed(input.components, c)
  }

  /** The component days of the period, built from the classified effects of its activities. */
  ghost predicate AreClassifiedDays(input: P.Input, dated: seq<Dated>, workings: seq<Working>, places: nat) {
    && |workings| == |input.days|
    && forall i :: 0 <= i < |workings| ==>
         && input.days[i].component in input.components && IsAttributed(input, input.days[i], workings[i], places)
         && Reads(workings[i].effects, Selected(dated, input.days[i].date, input.days[i].component))
  }

  /** The days that the kernel builds for a household whose internal movements are trades and
      conversions that tell their spread are accepted exactly when each leaves nothing. */
  lemma HouseholdIsAccepted(input: P.Input, happened: seq<Happened>, workings: seq<Working>, places: nat)
    requires ComparesBoundaries(input) && CoversPeriod(input) && AreDistinct(input.components)
    requires IsHousehold(input, happened) && input.legs == ProofLegs(input.components, DatedFrom(happened))
    requires AreClassifiedDays(input, DatedFrom(happened), workings, places)
    ensures forall i :: 0 <= i < |workings| ==> input.days[i].date > 0
    ensures P.Acceptable(input) <==> AllLeaveNothing(input, workings)
  {
    hide ProofLegs, ComparesBoundaries, AreDistinct, Classify, Settles, IsAttributed, Reads, Selected, P.Acceptable,
         AllLeaveNothing, Balances, NeutralsAreListed, NeutralsCancel, CoversDate;
    var dated := DatedFrom(happened);
    forall i | 0 <= i < |dated| ensures NeutralsAreListed(input.components, dated[i].legs) && Balances(dated[i].legs) {
      ClassifiedIsListed(happened[i].universe, happened[i].activity, input.components);
      SettledBalances(happened[i].universe, happened[i].activity);
    }
    forall i | 0 <= i < |workings| ensures IsKernelDay(input, input.days[i], workings[i], places) {
      assert input.days[i] in input.days;
      ClassifiedDayIsKernelDay(input, dated, input.days[i], workings[i], places);
    }
    forall date: Date | input.from <= date <= input.to ensures NeutralsCancel(input, date) {
      BalancedDatesCancel(input, dated, date);
    }
    KernelDaysAreAccepted(input, workings, places);
  }
}
