/** Capital regrouped. For a movement inside the investment universe the universe counts nothing,
    while each group counts the legs the movement keeps; the groups and the universe then differ
    by exactly what does not balance among those legs. */
module CapitalLaws {
  import opened AnalysisModel
  import opened Classifier
  import opened ClassifierLaws
  import opened Sums

  // ----- The two counts

  /** How an amount is written down, exactly or in Money units: a negated amount counts negatively. */
  ghost predicate IsOdd(r: real -> real) {
    forall x :: r(-x) == -r(x)
  }

  function Flow(r: real -> real, x: Option<real>): real {
    match x case None => 0.0 case Some(v) => r(v)
  }

  /** What the universe counts for a leg of one of its components. */
  function Counts(u: Universe, r: real -> real): Classified -> real {
    (c: Classified) => if u.invested(c.component) then Flow(r, c.dietz) else 0.0
  }

  /** What a group counts for it: the universe's flow, or else the kept leg. */
  function Keeps(u: Universe, r: real -> real): Classified -> real {
    (c: Classified) => if !u.invested(c.component) then 0.0 else Flow(r, if c.dietz.Some? then c.dietz else c.potential)
  }

  /** The investment universe is a part of the selected one, of instruments and of cash that is
      not owed, in accounts on record. */
  ghost predicate IsResolved(u: Universe) {
    forall c :: u.invested(c) ==> u.inside(c) && MayHoldCapital(u, c) && c.account in u.liabilities
  }

  /** The investment universe as it is selected: all instruments inside, and with cash included
      the cash of accounts that are not owed. Accounts inside are on record. */
  ghost predicate SelectsInvestments(u: Universe, includeCash: bool) {
    && (forall c :: u.inside(c) ==> c.account in u.liabilities)
    && (forall c :: u.invested(c)
          <==> u.inside(c) && (c.instrument.Some? || (includeCash && c.cash && !IsLiability(u, c.account))))
  }

  lemma SelectionIsResolved(u: Universe, includeCash: bool)
    requires SelectsInvestments(u, includeCash)
    ensures IsResolved(u)
  {
    forall c | u.invested(c) ensures u.inside(c) && MayHoldCapital(u, c) && c.account in u.liabilities {}
  }

  predicate IsInternal(u: Universe, a: Activity) {
    MovesInternally(a.kind) && AllIn(Endpoints(u, a.effects), u.invested)
  }

  // ----- Outside an internal movement

  ghost predicate SameFlows(u: Universe, legs: seq<Classified>) {
    forall i :: 0 <= i < |legs| && u.invested(legs[i].component) ==> legs[i].dietz == legs[i].potential
  }

  lemma ExternalLeg(u: Universe, a: Activity, e: Effect)
    requires !IsInternal(u, a)
    ensures SameFlows(u, Leg(u, a, Endpoints(u, a.effects), e))
  {
    hide AssetBucketFor, EffectAmount, AssociatedAmount, ReturnAssociation, AllIn, CountIn, PotentialCapital, MapSign,
         Endpoints;
  }

  lemma {:induction false} ExternalLegs(u: Universe, a: Activity, effects: seq<Effect>)
    requires !IsInternal(u, a)
    ensures SameFlows(u, Legs(u, a, Endpoints(u, a.effects), effects))
  {
    hide Leg, IsInternal, Endpoints;
    if effects != [] {
      ExternalLegs(u, a, effects[..|effects| - 1]);
      ExternalLeg(u, a, effects[|effects| - 1]);
    }
  }

  lemma SpreadKeepsFlows(u: Universe, legs: seq<Classified>)
    ensures SameFlows(u, legs) ==> SameFlows(u, WithSpread(u, legs))
    ensures NoFlows(legs) ==> NoFlows(WithSpread(u, legs))
  {
    hide SumOver, HasSpread, Receiver;
    var d := SumOver(legs, NeutralAmount());
    var i := Receiver(legs);
    if HasSpread(legs) && d != 0.0 {
      assert 0 <= i < |legs| by { SpreadHasReceiver(legs); }
    }
  }

  lemma SpreadHasReceiver(legs: seq<Classified>)
    requires HasSpread(legs)
    ensures 0 <= Receiver(legs) < |legs|
  {
  }

  /** Outside an internal movement the groups and the universe count the same capital. */
  lemma ExternalCapitalAgrees(u: Universe, a: Activity, r: real -> real)
    requires !IsInternal(u, a)
    ensures SumOver(Classify(u, a), Keeps(u, r)) == SumOver(Classify(u, a), Counts(u, r))
  {
    hide IsInternal, Endpoints, Legs, SumOver, WithSpread, AllIn;
    ExternalLegs(u, a, a.effects);
    SpreadKeepsFlows(u, Legs(u, a, Endpoints(u, a.effects), a.effects));
    SumEqual(Classify(u, a), Keeps(u, r), Counts(u, r));
  }

  // ----- The legs of an internal movement

  /** What an effect moves into the group of its component. */
  function Moved(u: Universe, a: Activity, r: real -> real): Effect -> real {
    (e: Effect) =>
      if e.target.HoldingCost? || u.componentOf(e).None? then 0.0
      else
        var c := u.componentOf(e).value;
        Flow(r, PotentialCapital(u, a, e, MapSign(u, e, c.account, EffectAmount(u, a, e, c)), c))
  }

  ghost predicate NoFlows(legs: seq<Classified>) {
    forall i :: 0 <= i < |legs| ==> legs[i].dietz.None?
  }

  lemma {:induction false} EndpointIsListed(u: Universe, effects: seq<Effect>, i: nat)
    requires i < |effects| && !effects[i].target.HoldingCost? && u.componentOf(effects[i]).Some?
    ensures u.componentOf(effects[i]).value in Endpoints(u, effects)
  {
    if i > 0 {
      assert effects[1..][i - 1] == effects[i];
      EndpointIsListed(u, effects[1..], i - 1);
    }
  }

  /** Every component the activity touches is invested. */
  ghost predicate Touches(u: Universe, effects: seq<Effect>) {
    forall i :: 0 <= i < |effects| && !effects[i].target.HoldingCost? && u.componentOf(effects[i]).Some?
      ==> u.invested(u.componentOf(effects[i]).value)
  }

  lemma InternalTouches(u: Universe, a: Activity)
    requires IsInternal(u, a)
    ensures Touches(u, a.effects)
  {
    hide Endpoints;
    forall i | 0 <= i < |a.effects| && !a.effects[i].target.HoldingCost? && u.componentOf(a.effects[i]).Some?
      ensures u.invested(u.componentOf(a.effects[i]).value)
    {
      EndpointIsListed(u, a.effects, i);
    }
  }

  lemma ProjectedHasNoCapital(u: Universe, a: Activity, e: Effect, account: string, c: Option<Component>,
                              r: real -> real)
    ensures NoFlows(Projected(u, a, e, account, c)) && SumOver(Projected(u, a, e, account, c), Keeps(u, r)) == 0.0
  {
    hide ReturnAssociation, AssociatedAmount, MapSign, SumOver;
    SumZero(Projected(u, a, e, account, c), Keeps(u, r));
  }

  lemma LegKeeps(u: Universe, a: Activity, e: Effect, r: real -> real)
    requires IsResolved(u) && IsInternal(u, a) && Touches(u, [e])
    ensures var legs := Leg(u, a, Endpoints(u, a.effects), e);
            NoFlows(legs) && SumOver(legs, Keeps(u, r)) == Moved(u, a, r)(e)
  {
    hide AssetBucketFor, EffectAmount, ReturnAssociation, AllIn, CountIn, MapSign, Endpoints, Projected, SumOver,
         IsResolved;
    if !e.target.HoldingCost? {
      var c := u.componentOf(e);
      var projected := Projected(u, a, e, if c.Some? then c.value.account else "", c);
      ProjectedHasNoCapital(u, a, e, if c.Some? then c.value.account else "", c, r);
      if c.Some? {
        assert [e][0] == e;
        assert u.invested(c.value) && u.inside(c.value) by { InvestedIsInside(u, c.value); }
        var leg := Physical(u, a, Endpoints(u, a.effects), e, c.value);
        SumOfOne(leg, Keeps(u, r));
        SumAppend([leg], projected, Keeps(u, r));
      } else {
        assert [] + projected == projected;
      }
    } else {
      SumZero([], Keeps(u, r));
    }
  }

  lemma InvestedIsInside(u: Universe, c: Component)
    requires IsResolved(u) && u.invested(c)
    ensures u.inside(c) && MayHoldCapital(u, c) && c.account in u.liabilities
  {
  }

  lemma {:induction false} LegsKeep(u: Universe, a: Activity, effects: seq<Effect>, r: real -> real)
    requires IsResolved(u) && IsInternal(u, a) && Touches(u, effects)
    ensures var legs := Legs(u, a, Endpoints(u, a.effects), effects);
            NoFlows(legs) && SumOver(legs, Keeps(u, r)) == SumOver(effects, Moved(u, a, r))
  {
    hide Leg, IsInternal, Endpoints, Moved, SumOver, IsResolved;
    if effects == [] {
      SumZero([], Keeps(u, r));
      SumZero([], Moved(u, a, r));
    } else {
      var n := |effects| - 1;
      LegsKeep(u, a, effects[..n], r);
      LegKeeps(u, a, effects[n], r);
      SumAppend(Legs(u, a, Endpoints(u, a.effects), effects[..n]), Leg(u, a, Endpoints(u, a.effects), effects[n]),
                Keeps(u, r));
      SumLast(effects, n, Moved(u, a, r));
      assert effects[..n + 1] == effects;
    }
  }

  /** The universe counts nothing for an internal movement. */
  lemma InternalIsNoFlow(u: Universe, a: Activity, r: real -> real)
    requires IsResolved(u) && IsInternal(u, a)
    ensures SumOver(Classify(u, a), Counts(u, r)) == 0.0
  {
    hide IsResolved, IsInternal, Endpoints, Legs, SumOver, WithSpread, AllIn, Moved;
    InternalTouches(u, a);
    LegsKeep(u, a, a.effects, r);
    SpreadKeepsFlows(u, Legs(u, a, Endpoints(u, a.effects), a.effects));
    SumZero(Classify(u, a), Counts(u, r));
  }

  // ----- What each kind of activity moves

  /** The fee of a trade, paid in cash. */
  predicate IsFee(e: Effect) {
    e.role.FeeRole? && e.money.Some?
  }

  /** A leg of a trade at its gross amount: the units, or the cash for them. */
  predicate IsTradeLeg(a: Activity, e: Effect)
    requires a.trade.Some?
  {
    && e.classification.TradePrincipal? && !e.role.FeeRole?
    && (if e.money.Some? then e.money.value == a.trade.value.gross && e.target.AccountCash?
        else e.quantity.Some? && e.holding == Some(a.trade.value.holding) && e.target.HoldingQuantity?)
  }

  /** Which way a leg of a trade moves. */
  function Side(): Effect -> real {
    (e: Effect) => if e.role.FeeRole? then 0.0 else if e.added then 1.0 else -1.0
  }

  /** A leg of a cash movement between accounts that are not owed, or its fee. */
  predicate IsCashLeg(u: Universe, e: Effect) {
    && e.money.Some? && !e.target.HoldingCost? && u.componentOf(e).Some?
    && u.componentOf(e).value.account in u.liabilities
    && !IsLiability(u, u.componentOf(e).value.account)
    && (e.classification.InternalTransfer? || (e.classification.FeeClass? && e.role.FeeRole?))
  }

  predicate IsPrincipalLeg(e: Effect) {
    e.classification.InternalTransfer?
  }

  function Principals(effects: seq<Effect>): nat {
    if effects == [] then 0
    else Principals(effects[..|effects| - 1])
         + if IsPrincipalLeg(effects[|effects| - 1]) then 1 else 0
  }

  predicate Receives(effects: seq<Effect>) {
    exists i :: 0 <= i < |effects| && IsPrincipalLeg(effects[i]) && effects[i].added
  }

  predicate AreKnown(u: Universe, a: Activity, effects: seq<Effect>) {
    forall i :: 0 <= i < |effects| && IsPrincipalLeg(effects[i]) && effects[i].money.Some?
      ==> Converted(u, effects[i].money.value, a.at).Some?
  }

  /** Units that change their account, or that are counted anew. */
  predicate IsUnitLeg(u: Universe, e: Effect) {
    && e.money.None? && e.target.HoldingQuantity? && e.quantity.Some? && e.holding.Some? && u.componentOf(e).Some?
    && (e.classification.Remeasurement? || (e.classification.InternalTransfer? && e.costPrice.None?))
  }

  /** An activity of the shape in which the ledger records its kind, or an undo of one. */
  ghost predicate IsRecorded(u: Universe, a: Activity) {
    match a.kind
    case Buy | Sell =>
      && a.trade.Some? && SumOver(a.effects, Side()) == 0.0
      && forall e ::
           e in a.effects ==> u.componentOf(e).Some? && !e.target.HoldingCost? && (IsFee(e) || IsTradeLeg(a, e))
    case CashTransfer =>
      a.reason.OtherReason? && a.trade.None? && forall e :: e in a.effects ==> IsCashLeg(u, e)
    case FXConversion =>
      && a.reason.OtherReason? && a.trade.None? && Principals(a.effects) == 2
      && Receives(a.effects)
      && forall e :: e in a.effects ==> IsCashLeg(u, e)
    case PositionTransfer =>
      a.trade.None? && forall e :: e in a.effects ==> IsUnitLeg(u, e)
    case DebtDraw | DebtPayment =>
      exists e :: e in a.effects && IsOwedLeg(u, e)
    case _ => true
  }

  /** The debt itself. */
  predicate IsOwedLeg(u: Universe, e: Effect) {
    e.target.AccountValue? && u.componentOf(e).Some? && u.componentOf(e).value.instrument.None?
    && IsLiability(u, u.componentOf(e).value.account)
  }

  function Directed(e: Effect, x: real): real {
    if e.added then x else -x
  }

  /** What an amount of money is, received or paid. */
  function Net(u: Universe, a: Activity, r: real -> real): Effect -> real {
    (e: Effect) => if e.money.None? then 0.0 else Directed(e, Flow(r, Converted(u, e.money.value, a.at)))
  }

  function NetPrincipal(u: Universe, a: Activity, r: real -> real): Effect -> real {
    (e: Effect) => if IsPrincipalLeg(e) then Net(u, a, r)(e) else 0.0
  }

  function NetFee(u: Universe, a: Activity, r: real -> real): Effect -> real {
    (e: Effect) => if IsPrincipalLeg(e) then 0.0 else Net(u, a, r)(e)
  }

  /** What units are worth where they leave or arrive; a recount moves no capital. */
  function NetUnits(u: Universe, r: real -> real): Effect -> real {
    (e: Effect) => if e.classification.Remeasurement? then 0.0 else Directed(e, Flow(r, u.portion(e)))
  }

  /** Whether the spread of a conversion is told apart: in base valuation, at known rates. */
  predicate IsTold(u: Universe, a: Activity) {
    u.baseValuation && AreKnown(u, a, a.effects)
  }

  /** By how much the groups count more than the universe: nothing for a trade; for cash what is
      received less what is sent and paid in fees, of which a told conversion leaves the fees;
      for units their worth where they arrive less their worth where they left. */
  function Gap(u: Universe, a: Activity, r: real -> real): real {
    match a.kind
    case CashTransfer => SumOver(a.effects, Net(u, a, r))
    case FXConversion => SumOver(a.effects, if IsTold(u, a) then NetFee(u, a, r) else Net(u, a, r))
    case PositionTransfer => SumOver(a.effects, NetUnits(u, r))
    case _ => 0.0
  }

  // ----- Trades

  function Scaled(f: Effect -> real, k: real): Effect -> real {
    (e: Effect) => Times(f(e), k)
  }

  lemma {:induction false} SumScaled(effects: seq<Effect>, f: Effect -> real, k: real)
    ensures SumOver(effects, Scaled(f, k)) == Times(SumOver(effects, f), k)
  {
    if effects != [] {
      SumScaled(effects[1..], f, k);
      Distributes(f(effects[0]), SumOver(effects[1..], f), k);
    }
  }

  lemma Distributes(x: real, y: real, k: real)
    ensures Times(x + y, k) == Times(x, k) + Times(y, k)
  {
  }

  lemma TradeLegMoves(u: Universe, a: Activity, r: real -> real, e: Effect)
    requires IsResolved(u) && IsOdd(r) && (a.kind.Buy? || a.kind.Sell?) && a.trade.Some? && !e.target.HoldingCost?
    requires u.componentOf(e).Some? && u.invested(u.componentOf(e).value) && (IsFee(e) || IsTradeLeg(a, e))
    ensures Moved(u, a, r)(e) == Scaled(Side(), Flow(r, Converted(u, a.trade.value.gross, a.at)))(e)
  {
    hide Converted, IsLiability, Times, IsResolved;
    var c := u.componentOf(e).value;
    InvestedIsInside(u, c);
    var gross := Converted(u, a.trade.value.gross, a.at);
    var side, worth := Side()(e), Flow(r, gross);
    assert Scaled(Side(), worth)(e) == Times(side, worth);
    TimesSide(worth);
    if IsFee(e) {
      assert side == 0.0 && Moved(u, a, r)(e) == 0.0;
    } else {
      assert EffectAmount(u, a, e, c) == gross;
      assert gross.Some? ==> r(-gross.value) == -r(gross.value);
      assert Moved(u, a, r)(e) == if e.added then worth else -worth;
      assert side == if e.added then 1.0 else -1.0;
    }
  }

  lemma TimesSide(x: real)
    ensures Times(0.0, x) == 0.0 && Times(1.0, x) == x && Times(-1.0, x) == -x
  {
  }

  /** The legs an internal trade keeps cancel, its fee being performance. */
  lemma TradeCapitalCancels(u: Universe, a: Activity, r: real -> real)
    requires IsResolved(u) && IsOdd(r) && IsInternal(u, a) && (a.kind.Buy? || a.kind.Sell?) && IsRecorded(u, a)
    ensures SumOver(Classify(u, a), Keeps(u, r)) == 0.0
  {
    hide IsResolved, IsOdd, IsInternal, Endpoints, Legs, SumOver, Moved, Side, Scaled;
    var gross := Flow(r, Converted(u, a.trade.value.gross, a.at));
    InternalTouches(u, a);
    LegsKeep(u, a, a.effects, r);
    forall i | 0 <= i < |a.effects| ensures Moved(u, a, r)(a.effects[i]) == Scaled(Side(), gross)(a.effects[i]) {
      TradeLegMoves(u, a, r, a.effects[i]);
    }
    SumEqual(a.effects, Moved(u, a, r), Scaled(Side(), gross));
    SumScaled(a.effects, Side(), gross);
  }

  // ----- Cash

  lemma CashLegMoves(u: Universe, a: Activity, r: real -> real, e: Effect)
    requires IsResolved(u) && IsOdd(r) && (a.kind.CashTransfer? || a.kind.FXConversion?) && IsCashLeg(u, e)
    requires u.invested(u.componentOf(e).value)
    ensures Moved(u, a, r)(e) == Net(u, a, r)(e)
  {
    hide Converted;
    InvestedIsInside(u, u.componentOf(e).value);
  }

  lemma CashLegsKeep(u: Universe, a: Activity, r: real -> real)
    requires IsResolved(u) && IsOdd(r) && IsInternal(u, a) && (a.kind.CashTransfer? || a.kind.FXConversion?)
             && IsRecorded(u, a)
    ensures SumOver(Legs(u, a, Endpoints(u, a.effects), a.effects), Keeps(u, r)) == SumOver(a.effects, Net(u, a, r))
  {
    hide IsResolved, IsOdd, IsInternal, Endpoints, Legs, SumOver, Moved, Net, Principals;
    InternalTouches(u, a);
    LegsKeep(u, a, a.effects, r);
    forall i | 0 <= i < |a.effects| ensures Moved(u, a, r)(a.effects[i]) == Net(u, a, r)(a.effects[i]) {
      CashLegMoves(u, a, r, a.effects[i]);
    }
    SumEqual(a.effects, Moved(u, a, r), Net(u, a, r));
  }

  // ----- Units

  lemma UnitLegMoves(u: Universe, a: Activity, r: real -> real, e: Effect)
    requires IsResolved(u) && IsOdd(r) && a.kind.PositionTransfer? && a.trade.None? && IsUnitLeg(u, e)
    requires u.invested(u.componentOf(e).value)
    ensures Moved(u, a, r)(e) == NetUnits(u, r)(e)
  {
    hide Converted;
    InvestedIsInside(u, u.componentOf(e).value);
  }

  lemma UnitsKeep(u: Universe, a: Activity, r: real -> real)
    requires IsResolved(u) && IsOdd(r) && IsInternal(u, a) && a.kind.PositionTransfer? && IsRecorded(u, a)
    ensures SumOver(Classify(u, a), Keeps(u, r)) == SumOver(a.effects, NetUnits(u, r))
  {
    hide IsResolved, IsOdd, IsInternal, Endpoints, Legs, SumOver, Moved, NetUnits;
    InternalTouches(u, a);
    LegsKeep(u, a, a.effects, r);
    forall i | 0 <= i < |a.effects| ensures Moved(u, a, r)(a.effects[i]) == NetUnits(u, r)(a.effects[i]) {
      UnitLegMoves(u, a, r, a.effects[i]);
    }
    SumEqual(a.effects, Moved(u, a, r), NetUnits(u, r));
  }

  // ----- Conversions

  /** What neutral cash legs count. */
  function NeutralFlow(r: real -> real): Classified -> real {
    (c: Classified) => if IsNeutralCash(c) then Flow(r, c.amount) else 0.0
  }

  lemma {:induction false} OneNeutral(legs: seq<Classified>, r: real -> real)
    requires NeutralLegs(legs) <= 1 && AllKnown(legs)
    ensures NeutralLegs(legs) == 0
            ==> SumOver(legs, NeutralAmount()) == 0.0 && SumOver(legs, NeutralFlow(r)) == 0.0 && Receiver(legs) < 0
    ensures NeutralLegs(legs) == 1 ==> SumOver(legs, NeutralFlow(r)) == r(SumOver(legs, NeutralAmount()))
                                       && (Receiver(legs) >= 0
                                           ==> legs[Receiver(legs)].amount == Some(SumOver(legs, NeutralAmount())))
  {
    hide SumOver;
    if legs == [] {
      SumZero([], NeutralAmount());
      SumZero([], NeutralFlow(r));
    } else {
      var n := |legs| - 1;
      assert legs[..n + 1] == legs;
      SumLast(legs, n, NeutralAmount());
      SumLast(legs, n, NeutralFlow(r));
      assert AllKnown(legs[..n]);
      OneNeutral(legs[..n], r);
    }
  }

  /** Of two neutral legs, what the receiving one does not have the other has. */
  lemma {:induction false} TwoNeutral(legs: seq<Classified>, r: real -> real)
    requires HasSpread(legs)
    ensures legs[Receiver(legs)].amount.Some?
    ensures var y := legs[Receiver(legs)].amount.value;
            SumOver(legs, NeutralFlow(r)) == r(y) + r(SumOver(legs, NeutralAmount()) - y)
  {
    hide SumOver;
    var n := |legs| - 1;
    assert legs[..n + 1] == legs;
    SumLast(legs, n, NeutralAmount());
    SumLast(legs, n, NeutralFlow(r));
    assert AllKnown(legs[..n]);
    if IsNeutralCash(legs[n]) {
      OneNeutral(legs[..n], r);
      assert legs[n].amount.Some?;
    } else {
      TwoNeutral(legs[..n], r);
    }
  }

  /** The one leg of an effect of a conversion inside the selected universe. */
  lemma ConversionLeg(u: Universe, a: Activity, e: Effect)
    requires a.kind.FXConversion? && IsRecorded(u, a) && AllIn(Endpoints(u, a.effects), u.inside) && e in a.effects
    ensures u.componentOf(e).Some? && u.inside(u.componentOf(e).value) && e.money.Some?
    ensures var endpoints := Endpoints(u, a.effects);
            var leg := Physical(u, a, endpoints, e, u.componentOf(e).value);
            && Leg(u, a, endpoints, e) == [leg] && leg.cash && leg.added == e.added && leg.neutral == IsPrincipalLeg(e)
            && leg.component == u.componentOf(e).value
            && leg.amount == MapSign(u, e, leg.component.account, Converted(u, e.money.value, a.at))
  {
    hide Endpoints, CountIn, Converted, MapSign, IsLiability, Principals, DietzCapital, PotentialCapital;
    var i :| 0 <= i < |a.effects| && a.effects[i] == e;
    assert IsCashLeg(u, e);
    EndpointIsListed(u, a.effects, i);
    EndpointsAreMany(u, a);
  }

  /** Inside the investment universe it keeps its amount as capital, and is no flow. */
  lemma InternalConversionLeg(u: Universe, a: Activity, e: Effect)
    requires IsResolved(u) && IsInternal(u, a) && a.kind.FXConversion? && IsRecorded(u, a) && e in a.effects
    ensures AllIn(Endpoints(u, a.effects), u.inside) && u.componentOf(e).Some? && u.invested(u.componentOf(e).value)
    ensures var leg := Physical(u, a, Endpoints(u, a.effects), e, u.componentOf(e).value);
            leg.dietz.None? && leg.potential == leg.amount
  {
    hide Endpoints, CountIn, Converted, MapSign, IsLiability, Principals, AssetBucketFor;
    InternalTouches(u, a);
    EndpointsInside(u, a);
    var c := u.componentOf(e).value;
    var i :| 0 <= i < |a.effects| && a.effects[i] == e;
    assert IsCashLeg(u, e);
    assert !a.effects[i].target.HoldingCost? && u.componentOf(a.effects[i]).Some?;
    InvestedIsInside(u, c);
  }

  lemma EndpointsInside(u: Universe, a: Activity)
    requires IsResolved(u) && IsInternal(u, a)
    ensures AllIn(Endpoints(u, a.effects), u.inside)
  {
    hide Endpoints;
    var endpoints := Endpoints(u, a.effects);
    forall i | 0 <= i < |endpoints| ensures u.inside(endpoints[i]) { InvestedIsInside(u, endpoints[i]); }
  }

  lemma EndpointsAreMany(u: Universe, a: Activity)
    requires a.kind.FXConversion? && IsRecorded(u, a) && AllIn(Endpoints(u, a.effects), u.inside)
    ensures CountIn(Endpoints(u, a.effects), u.inside) == |Endpoints(u, a.effects)| >= 2
  {
    hide Endpoints, CountIn;
    AllInIsCount(Endpoints(u, a.effects), u.inside);
    PrincipalsAreFew(a.effects);
    OneEndpointEach(u, a.effects);
  }

  lemma {:induction false} PrincipalsAreFew(effects: seq<Effect>)
    ensures Principals(effects) <= |effects|
  {
    if effects != [] { PrincipalsAreFew(effects[..|effects| - 1]); }
  }

  lemma {:induction false} OneEndpointEach(u: Universe, effects: seq<Effect>)
    requires forall e :: e in effects ==> IsCashLeg(u, e)
    ensures |Endpoints(u, effects)| == |effects|
  {
    hide IsLiability;
    if effects != [] {
      assert IsCashLeg(u, effects[0]);
      OneEndpointEach(u, effects[1..]);
    }
  }

  /** Legs and effects of a conversion, one for one. */
  ghost predicate AreConversionLegs(u: Universe, a: Activity, effects: seq<Effect>, legs: seq<Classified>,
                                    r: real -> real) {
    && NeutralLegs(legs) == Principals(effects)
    && (Receiver(legs) >= 0 <==> Receives(effects)) && (AllKnown(legs) <==> AreKnown(u, a, effects))
    && SumOver(legs, NeutralFlow(r)) == SumOver(effects, NetPrincipal(u, a, r))
    && (forall i ::
          0 <= i < |legs|
          ==> u.invested(legs[i].component) && legs[i].dietz.None? && legs[i].potential == legs[i].amount)
  }

  lemma OneMoreLeg(u: Universe, a: Activity, effects: seq<Effect>, legs: seq<Classified>, e: Effect, leg: Classified,
                   r: real -> real)
    requires AreConversionLegs(u, a, effects, legs, r) && e.money.Some?
    requires leg.cash && leg.added == e.added && leg.neutral == IsPrincipalLeg(e) && u.invested(leg.component)
    requires leg.dietz.None? && leg.potential == leg.amount && Flow(r, leg.amount) == Net(u, a, r)(e)
    requires leg.amount.Some? <==> Converted(u, e.money.value, a.at).Some?
    ensures AreConversionLegs(u, a, effects + [e], legs + [leg], r)
  {
    hide Converted, SumOver, Net, Receives, AreKnown, AllKnown, NeutralFlow, NetPrincipal, NeutralLegs, Receiver,
         Principals;
    OneMoreCounts(effects, legs, e, leg);
    SumOneMore(effects, e, NetPrincipal(u, a, r));
    SumOneMore(legs, leg, NeutralFlow(r));
    OneMoreKnown(u, a, effects, legs, e, leg);
    OneMoreReceives(effects, e);
    PrincipalFlow(u, a, e, leg, r);
  }

  lemma OneMoreCounts(effects: seq<Effect>, legs: seq<Classified>, e: Effect, leg: Classified)
    ensures Principals(effects + [e]) == Principals(effects) + if IsPrincipalLeg(e) then 1 else 0
    ensures NeutralLegs(legs + [leg]) == NeutralLegs(legs) + if IsNeutralCash(leg) then 1 else 0
    ensures Receiver(legs + [leg]) == if IsNeutralCash(leg) && leg.added then |legs| else Receiver(legs)
  {
    assert (effects + [e])[..|effects + [e]| - 1] == effects && (legs + [leg])[..|legs + [leg]| - 1] == legs;
  }

  lemma PrincipalFlow(u: Universe, a: Activity, e: Effect, leg: Classified, r: real -> real)
    requires leg.cash && leg.neutral == IsPrincipalLeg(e) && Flow(r, leg.amount) == Net(u, a, r)(e)
    ensures NeutralFlow(r)(leg) == NetPrincipal(u, a, r)(e)
  {
  }

  lemma OneMoreKnown(u: Universe, a: Activity, effects: seq<Effect>, legs: seq<Classified>, e: Effect, leg: Classified)
    requires leg.cash && leg.neutral == IsPrincipalLeg(e) && e.money.Some?
             && (leg.amount.Some? <==> Converted(u, e.money.value, a.at).Some?)
    requires AllKnown(legs) <==> AreKnown(u, a, effects)
    ensures AllKnown(legs + [leg]) <==> AreKnown(u, a, effects + [e])
  {
    hide Converted;
    var after, more := effects + [e], legs + [leg];
    assert AllKnown(more) <==> AllKnown(legs) && (IsNeutralCash(leg) ==> leg.amount.Some?) by {
      assert more[|legs|] == leg && forall i :: 0 <= i < |legs| ==> more[i] == legs[i];
    }
    assert AreKnown(u, a, after)
           <==> AreKnown(u, a, effects) && (IsPrincipalLeg(e) ==> Converted(u, e.money.value, a.at).Some?) by {
      assert after[|effects|] == e && forall i :: 0 <= i < |effects| ==> after[i] == effects[i];
    }
  }

  lemma OneMoreReceives(effects: seq<Effect>, e: Effect)
    ensures Receives(effects + [e]) <==> Receives(effects) || (IsPrincipalLeg(e) && e.added)
  {
    var after := effects + [e];
    assert after[|effects|] == e && forall i :: 0 <= i < |effects| ==> after[i] == effects[i];
  }

  lemma {:induction false} ConversionLegs(u: Universe, a: Activity, effects: seq<Effect>, r: real -> real)
    requires IsResolved(u) && IsOdd(r) && IsInternal(u, a) && a.kind.FXConversion? && IsRecorded(u, a)
    requires forall e :: e in effects ==> e in a.effects && IsCashLeg(u, e)
    ensures AreConversionLegs(u, a, effects, Legs(u, a, Endpoints(u, a.effects), effects), r)
  {
    hide IsResolved, IsOdd, IsInternal, IsRecorded, Endpoints, Leg, SumOver, Converted, IsCashLeg, AreConversionLegs;
    if effects == [] {
      NoLegs(u, a, r);
    } else {
      var n := |effects| - 1;
      var front, e := effects[..n], effects[n];
      ConversionLegs(u, a, front, r);
      InternalConversionLeg(u, a, e);
      ConversionLeg(u, a, e);
      NeutralLegFlow(u, a, e, r);
      var endpoints := Endpoints(u, a.effects);
      OneMoreLeg(u, a, front, Legs(u, a, endpoints, front), e, Physical(u, a, endpoints, e, u.componentOf(e).value), r);
      assert effects == front + [e];
    }
  }

  lemma NoLegs(u: Universe, a: Activity, r: real -> real)
    ensures AreConversionLegs(u, a, [], [], r)
  {
  }

  lemma NeutralLegFlow(u: Universe, a: Activity, e: Effect, r: real -> real)
    requires IsOdd(r) && IsCashLeg(u, e)
    ensures MapSign(u, e, u.componentOf(e).value.account, Converted(u, e.money.value, a.at)).Some?
            <==> Converted(u, e.money.value, a.at).Some?
    ensures Flow(r, MapSign(u, e, u.componentOf(e).value.account, Converted(u, e.money.value, a.at))) == Net(u, a, r)(e)
  {
    hide Converted;
  }

  /** Telling the spread apart makes the principal legs cancel, so a conversion leaves its fees;
      otherwise it leaves what a transfer leaves. */
  lemma ConversionCapitalIsItsFee(u: Universe, a: Activity, r: real -> real)
    requires IsResolved(u) && IsOdd(r) && IsInternal(u, a) && a.kind.FXConversion? && IsRecorded(u, a)
    ensures SumOver(Classify(u, a), Keeps(u, r))
            == SumOver(a.effects, if IsTold(u, a) then NetFee(u, a, r) else Net(u, a, r))
  {
    hide IsResolved, IsInternal, Endpoints, Legs, SumOver, AllIn, NetFee, NetPrincipal, Net, Principals, IsCashLeg,
         IsLiability, Converted;
    var endpoints := Endpoints(u, a.effects);
    var legs := Legs(u, a, endpoints, a.effects);
    CashLegsKeep(u, a, r);
    ConversionLegs(u, a, a.effects, r);
    EndpointsInside(u, a);
    forall e | e in a.effects ensures e.money.Some? { HasMoney(u, e); }
    assert HasSpread(legs) <==> AllKnown(legs);
    if IsTold(u, a) {
      NetSplits(u, a, a.effects, r);
      TwoNeutral(legs, r);
      SpreadSum(u, legs, Keeps(u, r));
      var d, i := SumOver(legs, NeutralAmount()), Receiver(legs);
      var y := legs[i].amount.value;
      assert r(-(y - d)) == -r(y - d) && -(y - d) == d - y;
      assert d == 0.0 ==> r(-y) == -r(y);
    }
  }

  lemma HasMoney(u: Universe, e: Effect)
    requires IsCashLeg(u, e)
    ensures e.money.Some? && u.componentOf(e).Some?
  {
  }

  lemma NetSplits(u: Universe, a: Activity, effects: seq<Effect>, r: real -> real)
    ensures SumOver(effects, Net(u, a, r))
            == SumOver(effects, NetPrincipal(u, a, r)) + SumOver(effects, NetFee(u, a, r))
  {
    SumPlus(effects, NetPrincipal(u, a, r), NetFee(u, a, r), Net(u, a, r));
  }

  // ----- Debts

  lemma OwedIsNotInvested(u: Universe, e: Effect)
    requires IsResolved(u) && IsOwedLeg(u, e)
    ensures !u.invested(u.componentOf(e).value)
  {
  }

  /** A debt is never part of the investment universe, so moving it is not internal to it. */
  lemma DebtsAreExternal(u: Universe, a: Activity)
    requires IsResolved(u) && (a.kind.DebtDraw? || a.kind.DebtPayment?) && IsRecorded(u, a)
    ensures !IsInternal(u, a)
  {
    hide Endpoints, IsResolved;
    var e :| e in a.effects && IsOwedLeg(u, e);
    var i :| 0 <= i < |a.effects| && a.effects[i] == e;
    OwedIsNotInvested(u, e);
    EndpointIsListed(u, a.effects, i);
  }

  // ----- All kinds

  /** The groups count the universe's capital and, for a movement inside it, the gap. */
  lemma GroupsCountTheGap(u: Universe, a: Activity, r: real -> real)
    requires IsResolved(u) && IsOdd(r) && IsRecorded(u, a)
    ensures SumOver(Classify(u, a), Keeps(u, r)) == SumOver(Classify(u, a), Counts(u, r))
            + if IsInternal(u, a) then Gap(u, a, r) else 0.0
  {
    hide IsResolved, IsOdd, IsInternal, Classify, SumOver, IsTold, Net, NetFee, NetUnits, IsRecorded;
    if !IsInternal(u, a) {
      ExternalCapitalAgrees(u, a, r);
    } else {
      InternalIsNoFlow(u, a, r);
      assert MovesInternally(a.kind) by { InternalMoves(u, a); }
      match a.kind {
        case Buy | Sell => TradeCapitalCancels(u, a, r);
        case CashTransfer =>
          CashLegsKeep(u, a, r);
          TransferHasNoSpread(u, a);
        case FXConversion => ConversionCapitalIsItsFee(u, a, r);
        case PositionTransfer => UnitsKeep(u, a, r);
        case _ => DebtsAreExternal(u, a);
      }
    }
  }

  lemma InternalMoves(u: Universe, a: Activity)
    requires IsInternal(u, a)
    ensures MovesInternally(a.kind)
  {
  }

  lemma TransferHasNoSpread(u: Universe, a: Activity)
    requires !a.kind.FXConversion?
    ensures Classify(u, a) == Legs(u, a, Endpoints(u, a.effects), a.effects)
  {
  }
}
