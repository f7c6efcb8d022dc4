/** The amounts the classifier gives to the effects of a holding are what its bridge takes them to
    be worth, so that a reconciled day needs no assumption about amounts. */
module HoldingWorth {
  import opened AnalysisModel
  import opened Sums
  import B = Bridges
  import C = Classifier
  import Laws = ClassifierLaws
  import Capital = CapitalLaws

  /** An activity with its identity and, for a trade, its quantity and unit price. */
  datatype Recorded = Recorded(activity: C.Activity, id: string, quantity: real, unitPrice: real)

  function ClassOf(c: C.Class): B.Classification {
    match c case InternalTransfer => B.InternalTransfer case Remeasurement => B.Remeasurement
    case _ => B.OtherClassification
  }

  function TargetOf(t: C.Target): B.Target {
    match t case AccountCash => B.AccountCash case AccountValue => B.AccountValue case _ => B.HoldingQuantity
  }

  /** A classified effect as the bridges read it. */
  function ForBridge(r: Recorded, e: C.Effect, leg: C.Classified): B.Effect {
    var a := r.activity;
    B.Effect(r.id, a.at,
             if a.trade.None? then None
             else Some(B.Trade(a.trade.value.holding, a.trade.value.sell, r.quantity, r.unitPrice,
                               a.trade.value.gross.amount, a.trade.value.gross.currency)),
             a.kind.PositionTransfer?, e.holding, e.quantity,
             if e.money.None? then None else Some(B.Money(e.money.value.amount, e.money.value.currency)),
             TargetOf(e.target), !e.added, ClassOf(e.classification), e.costPrice, leg.bucket, leg.neutral,
             leg.amount.Some?, if leg.amount.Some? then leg.amount.value else 0.0)
  }

  // ----- Stamped, consistent items

  /** The value of moved units, as a part of the item's value. */
  function Portion(ctx: B.Context, item: B.Item, quantity: real): real {
    var held := B.InferredQuantity(item);
    if held == 0.0 then B.ItemValue(ctx, item) else B.ItemValue(ctx, item) * quantity / held
  }

  /** The classifier and the bridge see the same items and rates: units that arrive are a part of
      the closing item, units that leave a part of the opening one. */
  ghost predicate SameEvidence(u: C.Universe, ctx: B.Context, previous: B.Item, current: B.Item) {
    && B.PositiveQuotes(previous, current) && B.CanBridge(ctx, previous, current)
    && previous.currency == ctx.currency == current.currency
    && (forall at ::
          u.rate(ctx.currency, at)
          == if ctx.baseValuation && ctx.currency != ctx.base then ctx.rateAt(ctx.currency, at) else Some(1.0))
    && (forall e: C.Effect :: e.holding == Some(ctx.holding) && e.quantity.Some? ==>
          u.portion(e) == Some(Portion(ctx, if e.added then current else previous, e.quantity.value)))
  }

  lemma PartOf(value: real, quantity: real, held: real, unit: real)
    requires held != 0.0 && value == held * unit
    ensures value * quantity / held == quantity * unit
  {
    var part := value * quantity / held;
    assert part * held == value * quantity;
    assert value * quantity == (quantity * unit) * held;
    assert (part - quantity * unit) * held == 0.0;
  }

  /** A part of an item is worth its quantity at the item's unit value. */
  lemma PortionIsUnits(ctx: B.Context, previous: B.Item, current: B.Item, quantity: real)
    requires B.PositiveQuotes(previous, current) && B.CanBridge(ctx, previous, current)
             && previous.currency == ctx.currency == current.currency
    ensures B.InferredQuantity(previous) != 0.0
            ==> Portion(ctx, previous, quantity) == quantity * B.OpenUnit(ctx, previous)
    ensures B.InferredQuantity(current) != 0.0
            ==> Portion(ctx, current, quantity) == quantity * B.CloseUnit(ctx, current)
  {
    hide B.InferredQuantity, B.OpenUnit, B.CloseUnit, B.ItemValue, B.PositiveQuotes;
    B.BothEndsValued(ctx, previous, current);
    if B.InferredQuantity(previous) != 0.0 {
      PartOf(B.ItemValue(ctx, previous), quantity, B.InferredQuantity(previous), B.OpenUnit(ctx, previous));
    }
    if B.InferredQuantity(current) != 0.0 {
      PartOf(B.ItemValue(ctx, current), quantity, B.InferredQuantity(current), B.CloseUnit(ctx, current));
    }
  }

  // ----- The legs of a holding

  /** A quantity effect on the holding of the bridge. */
  predicate OnHolding(u: C.Universe, ctx: B.Context, e: C.Effect) {
    && e.target.HoldingQuantity? && e.holding == Some(ctx.holding) && e.quantity.Some? && e.money.None?
    && u.componentOf(e).Some? && u.inside(u.componentOf(e).value) && u.componentOf(e).value.currency == ctx.currency
    && u.componentOf(e).value.account in u.liabilities
  }

  /** The units of a trade whose gross amount is quantity times unit price. */
  predicate IsTradedLeg(ctx: B.Context, r: Recorded, e: C.Effect) {
    var a := r.activity;
    && (a.kind.Buy? || a.kind.Sell?) && a.trade.Some? && a.trade.value.holding == ctx.holding
    && a.trade.value.sell == !e.added
    && a.trade.value.gross == C.Money(r.quantity * r.unitPrice, ctx.currency) && e.classification.TradePrincipal?
  }

  /** Units that change their account, are entered at a price, or leave at their carrying value,
      out of or into a position that has units at that end of the day. */
  predicate IsMovedLeg(u: C.Universe, previous: B.Item, current: B.Item, r: Recorded, e: C.Effect) {
    && r.activity.kind.PositionTransfer? && r.activity.trade.None?
    && (|| (e.classification.Remeasurement? && e.costPrice.Some?)
        || (B.InferredQuantity(if e.added then current else previous) != 0.0 && e.costPrice.None?
            && (e.classification.InternalTransfer? || (e.classification.Remeasurement? && !e.added && u.carries(e)))))
  }

  function LegOn(u: C.Universe, r: Recorded, e: C.Effect): C.Classified
    requires u.componentOf(e).Some?
  {
    C.Physical(u, r.activity, C.Endpoints(u, r.activity.effects), e, u.componentOf(e).value)
  }

  /** A leg of the holding is in a bucket or neutral. */
  lemma LegIsCounted(u: C.Universe, ctx: B.Context, previous: B.Item, current: B.Item, r: Recorded, e: C.Effect)
    requires OnHolding(u, ctx, e) && e in r.activity.effects
             && (IsTradedLeg(ctx, r, e) || IsMovedLeg(u, previous, current, r, e))
    ensures LegOn(u, r, e).bucket.Some? || LegOn(u, r, e).neutral
    ensures !e.added && e.classification.Remeasurement? && e.costPrice.None?
            ==> LegOn(u, r, e).bucket == Some(Adjustment)
  {
    hide C.Endpoints, C.CountIn, C.EffectAmount, C.ReturnAssociation, C.DietzCapital, C.PotentialCapital, C.MapSign,
         B.InferredQuantity;
    var endpoints := C.Endpoints(u, r.activity.effects);
    var i :| 0 <= i < |r.activity.effects| && r.activity.effects[i] == e;
    Capital.EndpointIsListed(u, r.activity.effects, i);
    Laws.AllInIsCount(endpoints, u.inside);
  }

  function AmountOn(u: C.Universe, ctx: B.Context, previous: B.Item, current: B.Item, r: Recorded,
                    e: C.Effect): Option<real>
    requires e.quantity.Some?
  {
    if r.activity.trade.Some? then C.Converted(u, r.activity.trade.value.gross, r.activity.at)
    else if e.costPrice.Some?
    then C.Converted(u, C.Money(C.Times(e.quantity.value, e.costPrice.value), ctx.currency), r.activity.at)
    else Some(Portion(ctx, if e.added then current else previous, e.quantity.value))
  }

  lemma LegAmount(u: C.Universe, ctx: B.Context, previous: B.Item, current: B.Item, r: Recorded, e: C.Effect)
    requires SameEvidence(u, ctx, previous, current) && OnHolding(u, ctx, e)
    requires IsTradedLeg(ctx, r, e) || IsMovedLeg(u, previous, current, r, e)
    ensures var amount := AmountOn(u, ctx, previous, current, r, e);
            LegOn(u, r, e).amount == match amount case None => None case Some(x) => Some(if e.added then x else -x)
  {
    hide C.Endpoints, C.CountIn, C.AssetBucketFor, C.ReturnAssociation, C.DietzCapital, C.PotentialCapital, C.Converted,
         C.Times, Portion, B.InferredQuantity, B.CanBridge, B.PositiveQuotes;
  }

  /** What the classifier counts for a leg of the holding is what the bridge takes it to be worth. */
  lemma LegCountsItsWorth(u: C.Universe, ctx: B.Context, previous: B.Item, current: B.Item, r: Recorded, e: C.Effect,
                          w: B.Walk)
    requires SameEvidence(u, ctx, previous, current) && OnHolding(u, ctx, e) && e in r.activity.effects
    requires IsTradedLeg(ctx, r, e) || IsMovedLeg(u, previous, current, r, e)
    requires w.Walk? && r.id !in w.seen && u.rate(ctx.currency, r.activity.at).Some?
    ensures B.Counted()(ForBridge(r, e, LegOn(u, r, e)))
         == B.Worth(ctx, w, ForBridge(r, e, LegOn(u, r, e)), B.CloseUnit(ctx, current), B.OpenUnit(ctx, previous))
  {
    hide B.InferredQuantity, B.OpenUnit, B.CloseUnit, Portion, LegOn, B.Factor, B.EventRate, C.Converted;
    LegIsCounted(u, ctx, previous, current, r, e);
    LegAmount(u, ctx, previous, current, r, e);
    RateIsFactor(u, ctx, previous, current, r.activity.at);
    var f := B.Factor(ctx, B.EventRate(ctx, ctx.currency, r.activity.at).0);
    if r.activity.trade.Some? {
      var gross := r.activity.trade.value.gross.amount;
      ConvertedBy(u, ctx.currency, gross, r.activity.at, f);
      TradedWorth(r.quantity, r.unitPrice, gross, f);
    } else if e.costPrice.Some? {
      var q, p := e.quantity.value, e.costPrice.value;
      ConvertedBy(u, ctx.currency, C.Times(q, p), r.activity.at, f);
      assert C.Times(q, p) == q * p && -q * p * f == -(q * p * f);
    } else {
      PortionIsUnits(ctx, previous, current, e.quantity.value);
    }
  }

  lemma TradedWorth(q: real, p: real, gross: real, f: real)
    requires gross == q * p
    ensures q * p * f == gross * f && -q * p * f == -(gross * f)
  {
    assert -q * p == -gross;
  }

  lemma ConvertedBy(u: C.Universe, currency: string, x: real, at: int, f: real)
    requires u.rate(currency, at) == Some(f)
    ensures C.Converted(u, C.Money(x, currency), at) == Some(x * f)
  {
  }

  lemma RateIsFactor(u: C.Universe, ctx: B.Context, previous: B.Item, current: B.Item, at: int)
    requires SameEvidence(u, ctx, previous, current) && u.rate(ctx.currency, at).Some?
    ensures u.rate(ctx.currency, at) == Some(B.Factor(ctx, B.EventRate(ctx, ctx.currency, at).0))
  {
    hide B.CanBridge, B.PositiveQuotes;
  }

  // ----- A day of a holding

  /** An effect of the holding's day: a leg of it, or the return-only side of another one. */
  datatype Source = Leg(record: Recorded, effect: C.Effect)
    | Income(record: Recorded, effect: C.Effect, account: string, at: Option<Component>)

  ghost predicate IsSource(u: C.Universe, ctx: B.Context, previous: B.Item, current: B.Item, s: Source, e: B.Effect) {
    match s
    case Leg(r, own) =>
      && OnHolding(u, ctx, own) && own in r.activity.effects && u.rate(ctx.currency, r.activity.at).Some?
      && (IsTradedLeg(ctx, r, own) || IsMovedLeg(u, previous, current, r, own))
      && e == ForBridge(r, own, LegOn(u, r, own))
    case Income(r, own, account, at) =>
      |C.Projected(u, r.activity, own, account, at)| == 1
      && e == ForBridge(r, own, C.Projected(u, r.activity, own, account, at)[0])
  }

  /** A trade of the holding comes with its units first, and each activity has its own identity. */
  predicate InOrder(ctx: B.Context, sources: seq<Source>, effects: seq<B.Effect>)
    requires |sources| == |effects|
  {
    forall i :: 0 <= i < |sources| ==>
      if sources[i].Leg? then !TradedBefore(ctx, effects, i, effects[i].activity)
      else B.IsTradeOf(effects[i], ctx.holding) ==> TradedBefore(ctx, effects, i, effects[i].activity)
  }

  predicate TradedBefore(ctx: B.Context, effects: seq<B.Effect>, n: nat, id: string)
    requires n <= |effects|
  {
    exists j :: 0 <= j < n && B.IsTradeOf(effects[j], ctx.holding) && effects[j].activity == id
  }

  lemma {:induction false} SeenAreTraded(ctx: B.Context, start: B.Walk, effects: seq<B.Effect>, n: nat)
    requires n <= |effects| && start.Walk? && start.seen == {} && B.WalkEffects(ctx, start, effects[..n]).Walk?
    ensures forall id :: id in B.WalkEffects(ctx, start, effects[..n]).seen <==> TradedBefore(ctx, effects, n, id)
  {
    if n > 0 {
      assert effects[..n][..n - 1] == effects[..n - 1];
      SeenAreTraded(ctx, start, effects, n - 1);
      OneMoreSeen(ctx, B.WalkEffects(ctx, start, effects[..n - 1]), effects[n - 1]);
    }
  }

  lemma OneMoreSeen(ctx: B.Context, w: B.Walk, e: B.Effect)
    requires w.Walk? && B.WalkEffect(ctx, w, e).Walk?
    ensures B.WalkEffect(ctx, w, e).seen == if B.IsTradeOf(e, ctx.holding) then w.seen + {e.activity} else w.seen
  {
  }

  lemma IncomeIsSilent(u: C.Universe, ctx: B.Context, r: Recorded, e: C.Effect, account: string, at: Option<Component>,
                       w: B.Walk, a: real, o: real)
    requires |C.Projected(u, r.activity, e, account, at)| == 1 && w.Walk?
    requires var own := ForBridge(r, e, C.Projected(u, r.activity, e, account, at)[0]);
             B.IsTradeOf(own, ctx.holding) ==> own.activity in w.seen
    ensures var own := ForBridge(r, e, C.Projected(u, r.activity, e, account, at)[0]);
            B.Counted()(own) == B.Worth(ctx, w, own, a, o) == 0.0
  {
    hide C.AssociatedAmount, C.MapSign;
  }

  /** Whatever a day's activities are, the classified effects of a holding are counted at their worth. */
  lemma ClassifiedAtWorth(u: C.Universe, ctx: B.Context, previous: B.Item, current: B.Item, sources: seq<Source>,
                          effects: seq<B.Effect>)
    requires SameEvidence(u, ctx, previous, current) && |sources| == |effects| && InOrder(ctx, sources, effects)
    requires forall i :: 0 <= i < |sources| ==> IsSource(u, ctx, previous, current, sources[i], effects[i])
    ensures B.CountedAtWorth(ctx, B.OpeningWalk(ctx, previous), effects, B.CloseUnit(ctx, current),
                             B.OpenUnit(ctx, previous))
  {
    hide SameEvidence, IsTradedLeg, IsMovedLeg, B.WalkEffects, B.Counted, B.Worth, B.CloseUnit, B.OpenUnit,
         TradedBefore, LegOn, ForBridge;
    var start := B.OpeningWalk(ctx, previous);
    IsQuoted(u, ctx, previous, current);
    forall n | 0 <= n < |effects| && B.WalkEffects(ctx, start, effects[..n]).Walk?
      ensures B.Counted()(effects[n])
           == B.Worth(ctx, B.WalkEffects(ctx, start, effects[..n]), effects[n], B.CloseUnit(ctx, current),
                      B.OpenUnit(ctx, previous))
    {
      var w := B.WalkEffects(ctx, start, effects[..n]);
      SeenAreTraded(ctx, start, effects, n);
      match sources[n] {
        case Leg(r, own) =>
          IdOfBridge(r, own, LegOn(u, r, own));
          LegCountsItsWorth(u, ctx, previous, current, r, own, w);
        case Income(r, own, account, at) =>
          IncomeIsSilent(u, ctx, r, own, account, at, w, B.CloseUnit(ctx, current), B.OpenUnit(ctx, previous));
      }
    }
  }

  lemma IsQuoted(u: C.Universe, ctx: B.Context, previous: B.Item, current: B.Item)
    requires SameEvidence(u, ctx, previous, current)
    ensures current.price.Some?
  {
  }

  lemma IdOfBridge(r: Recorded, e: C.Effect, leg: C.Classified)
    ensures ForBridge(r, e, leg).activity == r.id
  {
  }

  /** A day whose quantities reconcile is explained by what the classifier counts, the first
      purchase of an instrument included. */
  lemma ClassifiedDayReconciles(u: C.Universe, ctx: B.Context, previous: B.Item, current: B.Item, sources: seq<Source>,
                                effects: seq<B.Effect>)
    requires SameEvidence(u, ctx, previous, current) && |sources| == |effects| && InOrder(ctx, sources, effects)
    requires forall i :: 0 <= i < |sources| ==> IsSource(u, ctx, previous, current, sources[i], effects[i])
    requires B.PathDay(ctx, previous, current, effects) && !B.ReadsAsSplit(ctx, previous, current, effects)
    requires var w := B.WalkEffects(ctx, B.OpeningWalk(ctx, previous), effects);
             B.LeavesLoneOpening(ctx, previous, w) && w.expected == B.InferredQuantity(current)
    ensures var b := B.HoldingBridge(ctx, previous, current, effects);
            b.price + b.fx + SumOver(effects, B.Counted()) == B.ItemValue(ctx, current) - B.ItemValue(ctx, previous)
  {
    hide SameEvidence, InOrder, IsSource, B.HoldingBridge, B.WalkEffects, SumOver, B.CountedAtWorth;
    ClassifiedAtWorth(u, ctx, previous, current, sources, effects);
    B.ReconciledDay(ctx, previous, current, effects);
  }
}
