/** Classifying the effects of one activity: physical bucket, economic return component and
    capital flow, with the spread of an internal currency conversion kept apart. */
module Classifier {
  import opened AnalysisModel
  import opened Sums

  datatype Kind =
    | CashIn | CashOut | CashDividend | CashTransfer | FXConversion | PositionTransfer | CostAdjustment
    | Buy | Sell | ValueUpdate | DebtDraw | DebtPayment | Reversal

  datatype Reason =
    | IncomeReason | Contribution | Gift | OtherReason | Expense | CardPurchase | CardRefund
    | FeeReason | Tax | Reconciliation | PrincipalReason | Interest

  datatype Class =
    | ExternalInflow | ExternalOutflow | IncomeClass | FeeClass | InternalTransfer
    | TradePrincipal | DebtPrincipal | Remeasurement

  datatype Role = AmountRole | TransferFrom | TransferTo | PrincipalRole | FeeRole | QuantityRole | DebtRole | CostRole

  datatype Target = AccountCash | AccountValue | HoldingQuantity | HoldingCost

  datatype Money = Money(amount: real, currency: string)

  datatype Effect = Effect(role: Role, added: bool, target: Target, classification: Class, account: string,
                           holding: Option<string>,
                           money: Option<Money>, quantity: Option<real>, costPrice: Option<real>)

  datatype Trade = Trade(sell: bool, holding: string, gross: Money)

  datatype Activity = Activity(kind: Kind, reason: Reason, at: int, effects: seq<Effect>, trade: Option<Trade>,
                               dividend: Option<string>)

  datatype ReturnComponent = ReturnDividendInterest | ReturnInvestmentFee | ReturnFXConversionSpread

  /** What the classification reads of the portfolio: accounts and whether they are liabilities,
      the component of an effect and of a holding, the selected universes, rates in force, and the
      snapshot's evidence for in-kind removals. */
  datatype Universe = Universe(liabilities: map<string, bool>, componentOf: Effect -> Option<Component>,
                               ownerOf: string -> Option<Component>,
                               inside: Component -> bool, invested: Component -> bool, baseValuation: bool,
                               rate: (string, int) -> Option<real>, portion: Effect -> Option<real>,
                                   carries: Effect -> bool)

  /** One classified effect; amounts are signed and converted. */
  datatype Classified = Classified(component: Component, bucket: Option<Bucket>, amount: Option<real>, neutral: bool,
                                   cash: bool, added: bool,
                                   earns: Option<ReturnComponent>, returnAmount: Option<real>, dietz: Option<real>,
                                       potential: Option<real>)

  // ----- Amounts

  function Times(x: real, y: real): real {
    x * y
  }

  function Converted(u: Universe, m: Money, at: int): Option<real> {
    match u.rate(m.currency, at) case None => None case Some(r) => Some(Times(m.amount, r))
  }

  /** The unsigned converted amount of an effect, when it is known. */
  function EffectAmount(u: Universe, a: Activity, e: Effect, c: Component): Option<real> {
    if e.money.Some? then Converted(u, e.money.value, a.at)
    else if e.quantity.None? || e.holding.None? then None
    else if a.trade.Some? && a.trade.value.holding == e.holding.value then Converted(u, a.trade.value.gross, a.at)
    else if e.costPrice.Some? then Converted(u, Money(Times(e.quantity.value, e.costPrice.value), c.currency), a.at)
    else if a.kind.PositionTransfer? then u.portion(e)
    else None
  }

  /** The amount of an effect for the component it is associated with, without snapshot items. */
  function AssociatedAmount(u: Universe, a: Activity, e: Effect, owner: Component): Option<real> {
    if e.money.None? && a.kind.PositionTransfer? && e.costPrice.None?
        && !(a.trade.Some? && e.holding == Some(a.trade.value.holding)) then None
    else EffectAmount(u, a, e, owner)
  }

  predicate IsLiability(u: Universe, account: string) {
    account in u.liabilities && u.liabilities[account]
  }

  /** Balances of liabilities count against the household. */
  function SignOf(u: Universe, e: Effect, account: string, x: real): real {
    var directed := if e.added then x else -x;
    if IsLiability(u, account) && e.target.AccountValue? then -directed else directed
  }

  function MapSign(u: Universe, e: Effect, account: string, x: Option<real>): Option<real> {
    match x case None => None case Some(v) => Some(SignOf(u, e, account, v))
  }

  // ----- Return association and capital

  /** A return component with the holding it belongs to, if any. */
  function ReturnAssociation(a: Activity, e: Effect, c: Component): Option<(ReturnComponent, Option<string>)> {
    if a.kind.CashIn? && a.reason.Interest? && c.cash then Some((ReturnDividendInterest, None))
    else if a.kind.CashDividend? && a.dividend.Some? then Some((ReturnDividendInterest, a.dividend))
    else if (a.kind.CashOut? || a.kind.ValueUpdate?) && a.dividend.Some? && (a.reason.Tax? || a.reason.FeeReason?)
    then Some((ReturnInvestmentFee, a.dividend))
    else if (a.kind.Buy? || a.kind.Sell?) && a.trade.Some? && e.role.FeeRole?
    then Some((ReturnInvestmentFee, Some(a.trade.value.holding)))
    else None
  }

  predicate MayHoldCapital(u: Universe, c: Component) {
    c.instrument.Some? || (c.cash && c.account in u.liabilities && !u.liabilities[c.account])
  }

  /** The capital leg an effect keeps whatever the universe is. */
  function PotentialCapital(u: Universe, a: Activity, e: Effect, amount: Option<real>, c: Component): Option<real> {
    if amount.None? || !MayHoldCapital(u, c) then None
    else if ReturnAssociation(a, e, c).Some? then None
    else if a.kind.CashDividend? || a.kind.ValueUpdate? then None
    else if e.classification.Remeasurement? then None
    else if a.kind.CashIn? && a.reason.Interest? then None
    else if (a.kind.Buy? || a.kind.Sell?) && e.role.FeeRole? then None
    else if a.kind.PositionTransfer? then amount
    else if e.money.None? && a.trade.None? then None
    else amount
  }

  predicate MovesInternally(kind: Kind) {
    kind.Buy? || kind.Sell? || kind.CashTransfer? || kind.FXConversion? || kind.DebtDraw? || kind.DebtPayment?
    || kind.PositionTransfer?
  }

  /** The capital that enters or leaves the investment universe. */
  function DietzCapital(u: Universe, a: Activity, e: Effect, amount: Option<real>, c: Component,
                        endpoints: seq<Component>): Option<real> {
    var potential := PotentialCapital(u, a, e, amount, c);
    if potential.None? || !u.invested(c) then None
    else if MovesInternally(a.kind) && AllIn(endpoints, u.invested) then None
    else potential
  }

  // ----- Buckets

  predicate AllIn(endpoints: seq<Component>, inside: Component -> bool) {
    endpoints != [] && forall i :: 0 <= i < |endpoints| ==> inside(endpoints[i])
  }

  function CountIn(endpoints: seq<Component>, inside: Component -> bool): nat {
    if endpoints == [] then 0 else (if inside(endpoints[0]) then 1 else 0) + CountIn(endpoints[1..], inside)
  }

  predicate IsPrincipal(a: Activity, e: Effect) {
    e.classification.ExternalInflow? || e.classification.ExternalOutflow? || e.classification.TradePrincipal?
    || e.classification.DebtPrincipal? || e.classification.InternalTransfer?
    || a.reason.Contribution? || a.reason.PrincipalReason?
  }

  function AssetBucketFor(u: Universe, a: Activity, e: Effect, c: Component, insideCount: nat,
                          endpointCount: nat): Option<Bucket> {
    var owed := IsLiability(u, c.account) && e.target.AccountValue?;
    if c.account !in u.liabilities then None
    else if owed && (a.reason.CardPurchase? || a.reason.CardRefund? || (a.kind.CashIn? && a.reason.Interest?))
    then Some(Spending)
    else if a.kind.CashDividend? || (a.kind.CashIn? && a.reason.Interest?) then Some(DividendInterest)
    else if a.kind.CashIn? && (a.reason.IncomeReason? || a.reason.Gift?) then Some(Income)
    else if a.kind.CashOut? && (a.reason.Expense? || a.reason.Interest?) then Some(Spending)
    else if a.kind.DebtPayment? && e.role.FeeRole? then Some(Spending)
    else if a.reason.FeeReason? || a.reason.Tax? || e.classification.FeeClass? then Some(Fee)
    else if a.kind.ValueUpdate? || e.classification.Remeasurement? then
      if a.kind.PositionTransfer? && e.classification.Remeasurement? && e.costPrice.None? then None
      else if owed && a.reason.Interest? then Some(LiabilityImpact)
      else Some(Adjustment)
    else if IsPrincipal(a, e) && (endpointCount == 1 || insideCount < endpointCount) then Some(ExternalFlow)
    else if owed && !e.classification.DebtPrincipal? then Some(LiabilityImpact)
    else None
  }

  // ----- One effect

  function Endpoints(u: Universe, effects: seq<Effect>): seq<Component> {
    if effects == [] then []
    else
      (if effects[0].target.HoldingCost? || u.componentOf(effects[0]).None? then []
       else [u.componentOf(effects[0]).value])
      + Endpoints(u, effects[1..])
  }

  predicate IsUnpricedRestatement(a: Activity, e: Effect) {
    a.kind.PositionTransfer? && e.classification.Remeasurement? && e.costPrice.None?
  }

  /** The physical side of an effect inside the universe. */
  function Physical(u: Universe, a: Activity, endpoints: seq<Component>, e: Effect, c: Component): Classified {
    var carrying := IsUnpricedRestatement(a, e) && u.carries(e);
    var unsigned := if IsUnpricedRestatement(a, e) && !carrying then None else EffectAmount(u, a, e, c);
    var bucket := if carrying then Some(Adjustment)
        else AssetBucketFor(u, a, e, c, CountIn(endpoints, u.inside), |endpoints|);
    var amount := MapSign(u, e, c.account, unsigned);
    var association := ReturnAssociation(a, e, c);
    var own := association.Some? && association.value.1.None? && u.invested(c);
    Classified(c, bucket, amount, bucket.None? && AllIn(endpoints, u.inside), e.money.Some?, e.added,
               if own then Some(association.value.0) else None, if own then amount else None,
               DietzCapital(u, a, e, amount, c, endpoints), PotentialCapital(u, a, e, amount, c))
  }

  /** The return-only side of an effect that belongs to another component. */
  function Projected(u: Universe, a: Activity, e: Effect, account: string, at: Option<Component>): seq<Classified> {
    var c := if at.Some? then at.value else NO_COMPONENT;
    var association := ReturnAssociation(a, e, c);
    if association.None? || association.value.1.None? then []
    else
      var owner := u.ownerOf(association.value.1.value);
      if owner.None? || !u.invested(owner.value) || (at.Some? && u.inside(c) && SameComponent(owner.value, c)) then []
      else [Classified(owner.value, None, None, false, e.money.Some?, e.added, Some(association.value.0),
                       MapSign(u, e, account, AssociatedAmount(u, a, e, owner.value)), None, None)]
  }

  /** Components are told apart by account, holding and instrument, and cash by its currency. */
  predicate SameComponent(c: Component, d: Component) {
    && c.account == d.account && c.holding == d.holding && c.instrument == d.instrument
    && (c.holding.None? ==> c.cash == d.cash && (c.cash ==> c.currency == d.currency))
  }

  predicate IsListed(components: seq<Component>, c: Component) {
    exists i :: 0 <= i < |components| && SameComponent(c, components[i])
  }

  lemma SameIsShared(x: Component, c: Component, d: Component)
    requires SameComponent(x, c) && SameComponent(x, d)
    ensures SameComponent(c, d) && SameComponent(d, c)
  {
  }

  const NO_COMPONENT := Component("", None, None, "", "", false)

  function Leg(u: Universe, a: Activity, endpoints: seq<Component>, e: Effect): seq<Classified> {
    if e.target.HoldingCost? then []
    else
      var c := u.componentOf(e);
      (if c.Some? && u.inside(c.value) then [Physical(u, a, endpoints, e, c.value)] else [])
      + Projected(u, a, e, if c.Some? then c.value.account else "", c)
  }

  function Legs(u: Universe, a: Activity, endpoints: seq<Component>, effects: seq<Effect>): seq<Classified> {
    if effects == [] then []
    else Legs(u, a, endpoints, effects[..|effects| - 1]) + Leg(u, a, endpoints, effects[|effects| - 1])
  }

  // ----- The spread of an internal conversion

  predicate IsNeutralCash(c: Classified) {
    c.neutral && c.cash
  }

  function NeutralAmount(): Classified -> real {
    (c: Classified) => if IsNeutralCash(c) && c.amount.Some? then c.amount.value else 0.0
  }

  function NeutralLegs(legs: seq<Classified>): nat {
    if legs == [] then 0
    else NeutralLegs(legs[..|legs| - 1]) + if IsNeutralCash(legs[|legs| - 1]) then 1 else 0
  }

  /** The last receiving neutral leg, or -1. */
  function Receiver(legs: seq<Classified>): (i: int)
    ensures -1 <= i < |legs| && (i >= 0 ==> IsNeutralCash(legs[i]))
  {
    if legs == [] then -1
    else if IsNeutralCash(legs[|legs| - 1]) && legs[|legs| - 1].added then |legs| - 1
    else Receiver(legs[..|legs| - 1])
  }

  predicate AllKnown(legs: seq<Classified>) {
    forall i :: 0 <= i < |legs| && IsNeutralCash(legs[i]) ==> legs[i].amount.Some?
  }

  predicate HasSpread(legs: seq<Classified>) {
    AllKnown(legs) && NeutralLegs(legs) == 2 && Receiver(legs) >= 0
  }

  function Less(x: Option<real>, d: real): Option<real> {
    match x case None => None case Some(v) => Some(v - d)
  }

  function Spread(u: Universe, c: Component, d: real): Classified {
    Classified(c, Some(FxConversionSpread), Some(d), false, false, false,
               if u.invested(c) then Some(ReturnFXConversionSpread) else None, if u.invested(c) then Some(d)
               else None, None, None)
  }

  function Adjusted(leg: Classified, d: real): Classified {
    leg.(amount := Less(leg.amount, d), dietz := Less(leg.dietz, d), potential := Less(leg.potential, d))
  }

  function WithSpread(u: Universe, legs: seq<Classified>): seq<Classified> {
    var d := SumOver(legs, NeutralAmount());
    if !HasSpread(legs) || d == 0.0 then legs
    else
      var i := Receiver(legs);
      legs[i := Adjusted(legs[i], d)] + [Spread(u, legs[i].component, d)]
  }

  function Classify(u: Universe, a: Activity): seq<Classified> {
    var endpoints := Endpoints(u, a.effects);
    var legs := Legs(u, a, endpoints, a.effects);
    if a.kind.FXConversion? && u.baseValuation && AllIn(endpoints, u.inside) then WithSpread(u, legs) else legs
  }

  // ----- The program

  method AttributeInternalFXDifference(u: Universe, effects: seq<Classified>) returns (r: seq<Classified>)
    ensures r == WithSpread(u, effects)
  {
    hide SumOver;
    var difference, receiver, legs := 0.0, -1, 0;
    SumZero(effects[..0], NeutralAmount());
    for index := 0 to |effects|
      invariant difference == SumOver(effects[..index], NeutralAmount())
      invariant receiver == Receiver(effects[..index]) && legs == NeutralLegs(effects[..index])
                && AllKnown(effects[..index])
    {
      var e := effects[index];
      SumLast(effects, index, NeutralAmount());
      assert effects[..index + 1][..index] == effects[..index];
      if !(e.neutral && e.cash) {
        continue;
      }
      if e.amount.None? {
        assert IsNeutralCash(effects[index]);
        return effects;
      }
      legs := legs + 1;
      difference := difference + e.amount.value;
      if e.added {
        receiver := index;
      }
    }
    assert effects[..|effects|] == effects;
    if legs != 2 || receiver < 0 || difference == 0.0 {
      return effects;
    }
    var leg := effects[receiver];
    leg := leg.(amount := Some(leg.amount.value - difference));
    if leg.dietz.Some? {
      leg := leg.(dietz := Some(leg.dietz.value - difference));
    }
    if leg.potential.Some? {
      leg := leg.(potential := Some(leg.potential.value - difference));
    }
    var spread :=
        Classified(leg.component, Some(FxConversionSpread), Some(difference), false, false, false, None, None, None,
                   None);
    if u.invested(leg.component) {
      spread := spread.(earns := Some(ReturnFXConversionSpread), returnAmount := Some(difference));
    }
    r := effects[receiver := leg] + [spread];
  }

  method CollectEndpoints(u: Universe, effects: seq<Effect>) returns (endpoints: seq<Component>)
    ensures endpoints == Endpoints(u, effects)
  {
    endpoints := [];
    assert effects[0..] == effects;
    for i := 0 to |effects|
      invariant Endpoints(u, effects) == endpoints + Endpoints(u, effects[i..])
    {
      var e := effects[i];
      assert effects[i..][0] == e && effects[i..][1..] == effects[i + 1..];
      if e.target.HoldingCost? {
        continue;
      }
      var c := u.componentOf(e);
      if c.Some? {
        endpoints := endpoints + [c.value];
      }
    }
    assert Endpoints(u, effects[|effects|..]) == [];
  }

  method ClassifyActivity(u: Universe, a: Activity) returns (results: seq<Classified>)
    ensures results == Classify(u, a)
  {
    hide Leg, WithSpread, Endpoints;
    var endpoints := CollectEndpoints(u, a.effects);
    results := [];
    for i := 0 to |a.effects|
      invariant results == Legs(u, a, endpoints, a.effects[..i])
    {
      assert a.effects[..i + 1][..i] == a.effects[..i];
      results := results + Leg(u, a, endpoints, a.effects[i]);
    }
    assert a.effects[..|a.effects|] == a.effects;
    if a.kind.FXConversion? && u.baseValuation && AllIn(endpoints, u.inside) {
      results := AttributeInternalFXDifference(u, results);
    }
  }

  // ----- The spread of an internal conversion

  /** The known amount of a classified effect, in a bucket or neutral. */
  function Amount(): Classified -> real {
    (c: Classified) => if (c.bucket.Some? || c.neutral) && c.amount.Some? then c.amount.value else 0.0
  }

  function InBucket(k: Bucket): Classified -> real {
    (c: Classified) => if c.bucket == Some(k) && c.amount.Some? then c.amount.value else 0.0
  }

  function InReturn(k: ReturnComponent): Classified -> real {
    (c: Classified) => if c.earns == Some(k) && c.returnAmount.Some? then c.returnAmount.value else 0.0
  }

  lemma SumUpdate(legs: seq<Classified>, i: nat, c: Classified, f: Classified -> real)
    requires i < |legs|
    ensures SumOver(legs[i := c], f) == SumOver(legs, f) - f(legs[i]) + f(c)
  {
    assert legs == legs[..i] + [legs[i]] + legs[i + 1..];
    assert legs[i := c] == legs[..i] + [c] + legs[i + 1..];
    SumAppend(legs[..i] + [legs[i]], legs[i + 1..], f);
    SumAppend(legs[..i] + [c], legs[i + 1..], f);
    SumAppend(legs[..i], [legs[i]], f);
    SumAppend(legs[..i], [c], f);
    assert SumOver([legs[i]], f) == f(legs[i]) && SumOver([c], f) == f(c);
  }

  lemma SpreadSum(u: Universe, legs: seq<Classified>, f: Classified -> real)
    requires HasSpread(legs)
    ensures var d := SumOver(legs, NeutralAmount());
            var i := Receiver(legs);
            SumOver(WithSpread(u, legs), f) == SumOver(legs, f)
              + if d == 0.0 then 0.0 else f(Adjusted(legs[i], d)) - f(legs[i]) + f(Spread(u, legs[i].component, d))
  {
    hide SumOver;
    var d := SumOver(legs, NeutralAmount());
    if d != 0.0 {
      var i := Receiver(legs);
      var spread := Spread(u, legs[i].component, d);
      SumUpdate(legs, i, Adjusted(legs[i], d), f);
      SumAppend(legs[i := Adjusted(legs[i], d)], [spread], f);
      assert SumOver([spread], f) == f(spread) by { SumOfOne(spread, f); }
    }
  }

  lemma SumOfOne(c: Classified, f: Classified -> real)
    ensures SumOver([c], f) == f(c)
  {
  }

  /** Neutral legs have no bucket. */
  ghost predicate NeutralIsBare(legs: seq<Classified>) {
    forall i :: 0 <= i < |legs| && legs[i].neutral ==> legs[i].bucket.None?
  }

  /** Keeping the spread apart makes the neutral legs cancel and changes no total: the amount
      moves from the receiving leg to the spread bucket, and no other bucket changes. */
  lemma SpreadKeepsTotals(u: Universe, legs: seq<Classified>, k: Bucket)
    requires HasSpread(legs) && NeutralIsBare(legs)
    ensures var d := SumOver(legs, NeutralAmount());
            && SumOver(WithSpread(u, legs), NeutralAmount()) == 0.0
            && SumOver(WithSpread(u, legs), Amount()) == SumOver(legs, Amount())
            && SumOver(WithSpread(u, legs), InBucket(k)) == SumOver(legs, InBucket(k))
                + if k == FxConversionSpread then d else 0.0
  {
    hide SumOver, WithSpread, NeutralLegs;
    SpreadSum(u, legs, NeutralAmount());
    SpreadSum(u, legs, Amount());
    SpreadSum(u, legs, InBucket(k));
    assert legs[Receiver(legs)].bucket.None?;
  }

  /** The neutral cash legs cancel exactly when they did before or the spread can be told. */
  lemma NeutralLegsCancelExactly(u: Universe, legs: seq<Classified>)
    requires NeutralIsBare(legs)
    ensures SumOver(WithSpread(u, legs), NeutralAmount()) == 0.0
            <==> SumOver(legs, NeutralAmount()) == 0.0 || HasSpread(legs)
  {
    hide SumOver, NeutralLegs;
    if HasSpread(legs) { SpreadKeepsTotals(u, legs, Residual); }
  }

  lemma {:induction false} LegsAreBare(u: Universe, a: Activity, endpoints: seq<Component>, effects: seq<Effect>)
    ensures NeutralIsBare(Legs(u, a, endpoints, effects))
  {
    if effects != [] {
      LegsAreBare(u, a, endpoints, effects[..|effects| - 1]);
      LegIsBare(u, a, endpoints, effects[|effects| - 1]);
      BareAppend(Legs(u, a, endpoints, effects[..|effects| - 1]), Leg(u, a, endpoints, effects[|effects| - 1]));
    }
  }

  lemma LegIsBare(u: Universe, a: Activity, endpoints: seq<Component>, e: Effect)
    ensures NeutralIsBare(Leg(u, a, endpoints, e))
  {
    hide AssetBucketFor, EffectAmount, AssociatedAmount, ReturnAssociation, PotentialCapital, DietzCapital, AllIn,
         CountIn;
  }

  lemma BareAppend(x: seq<Classified>, y: seq<Classified>)
    requires NeutralIsBare(x) && NeutralIsBare(y)
    ensures NeutralIsBare(x + y)
  {
  }
}
