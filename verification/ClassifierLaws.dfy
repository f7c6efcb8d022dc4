/** Laws of the classification: an undo at the same rates cancels what it undoes. */
module ClassifierLaws {
  import opened AnalysisModel
  import opened Classifier
  import opened Sums

  // ----- Undo

  function Inverted(e: Effect): Effect {
    e.(added := !e.added)
  }

  /** Inverted effects, last first. */
  function InvertedAll(effects: seq<Effect>): seq<Effect> {
    if effects == [] then [] else InvertedAll(effects[1..]) + [Inverted(effects[0])]
  }

  function UndoOf(a: Activity, at: int): Activity {
    Activity(Reversal, OtherReason, at, InvertedAll(a.effects), None, None)
  }

  predicate IsQuantityLeg(e: Effect, holding: string) {
    e.target.HoldingQuantity? && e.holding == Some(holding) && e.quantity.Some?
  }

  /** The quantity leg that tells the side of a reversed trade. */
  function QuantityLeg(effects: seq<Effect>, holding: string): Option<Effect> {
    if effects == [] then None
    else if IsQuantityLeg(effects[0], holding) then Some(effects[0])
    else QuantityLeg(effects[1..], holding)
  }

  /** How an undo is reported: with the kind, reason and evidence of its original, and with the
      side of a trade taken from its own quantity leg. */
  function Reported(undo: Activity, original: Activity): Activity {
    if !undo.kind.Reversal? || original.kind.Reversal? then undo
    else
      var same := undo.(kind := original.kind, reason := original.reason, dividend := original.dividend);
      if original.trade.None? then same
      else
        var q := QuantityLeg(undo.effects, original.trade.value.holding);
        if q.None? then same
        else same.(kind := if q.value.added then Buy else Sell,
                   trade := Some(original.trade.value.(sell := !q.value.added)))
  }

  /** Money and trade legs at the same rates; a trade has its quantity leg. */
  ghost predicate IsUndoable(u: Universe, a: Activity, at: int) {
    && !a.kind.Reversal? && !a.kind.PositionTransfer?
    && (a.trade.Some?
        ==> (a.kind.Buy? || a.kind.Sell?)
            && exists i ::
                 0 <= i < |a.effects| && IsQuantityLeg(a.effects[i], a.trade.value.holding))
    && (forall currency :: u.rate(currency, a.at) == u.rate(currency, at))
    && (forall e :: u.componentOf(Inverted(e)) == u.componentOf(e))
  }

  function Neg(x: Option<real>): Option<real> {
    match x case None => None case Some(v) => Some(-v)
  }

  function Opposite(c: Classified): Classified {
    c.(amount := Neg(c.amount), returnAmount := Neg(c.returnAmount), dietz := Neg(c.dietz),
       potential := Neg(c.potential), added := !c.added)
  }

  /** The two kinds are classified alike: they are the same up to the side of a trade. */
  ghost predicate Mirrors(u: Universe, a: Activity, r: Activity) {
    && !a.kind.PositionTransfer? && !r.kind.PositionTransfer?
    && (r.kind == a.kind || ((a.kind.Buy? || a.kind.Sell?) && (r.kind.Buy? || r.kind.Sell?)))
    && r.reason == a.reason && r.dividend == a.dividend
    && (match a.trade case None => r.trade.None?
        case Some(t) => r.trade.Some? && r.trade.value.holding == t.holding && r.trade.value.gross == t.gross)
    && (forall currency :: u.rate(currency, a.at) == u.rate(currency, r.at))
    && (forall e :: u.componentOf(Inverted(e)) == u.componentOf(e))
  }

  ghost predicate SameCounts(u: Universe, x: seq<Component>, y: seq<Component>) {
    |x| == |y| && CountIn(x, u.inside) == CountIn(y, u.inside)
    && (AllIn(x, u.inside) <==> AllIn(y, u.inside)) && (AllIn(x, u.invested) <==> AllIn(y, u.invested))
  }

  lemma SameRateSameAmount(u: Universe, m: Money, at: int, later: int)
    requires u.rate(m.currency, at) == u.rate(m.currency, later)
    ensures Converted(u, m, at) == Converted(u, m, later)
  {
    hide Times;
  }

  lemma AmountMirrors(u: Universe, a: Activity, r: Activity, e: Effect, c: Component)
    requires Mirrors(u, a, r)
    ensures EffectAmount(u, r, Inverted(e), c) == EffectAmount(u, a, e, c)
    ensures AssociatedAmount(u, r, Inverted(e), c) == AssociatedAmount(u, a, e, c)
    ensures ReturnAssociation(r, Inverted(e), c) == ReturnAssociation(a, e, c)
  {
    hide Converted, Times;
    if e.money.Some? { SameRateSameAmount(u, e.money.value, a.at, r.at); }
    if a.trade.Some? { SameRateSameAmount(u, a.trade.value.gross, a.at, r.at); }
    if e.quantity.Some? && e.costPrice.Some? {
      SameRateSameAmount(u, Money(Times(e.quantity.value, e.costPrice.value), c.currency), a.at, r.at);
    }
  }

  lemma CapitalMirrors(u: Universe, a: Activity, r: Activity, e: Effect, amount: Option<real>, c: Component,
                       x: seq<Component>, y: seq<Component>)
    requires Mirrors(u, a, r) && SameCounts(u, x, y)
    ensures PotentialCapital(u, r, Inverted(e), Neg(amount), c) == Neg(PotentialCapital(u, a, e, amount, c))
    ensures DietzCapital(u, r, Inverted(e), Neg(amount), c, y) == Neg(DietzCapital(u, a, e, amount, c, x))
  {
    hide AllIn;
  }

  lemma SignMirrors(u: Universe, e: Effect, account: string, x: Option<real>)
    ensures MapSign(u, Inverted(e), account, x) == Neg(MapSign(u, e, account, x))
  {
  }

  lemma BucketMirrors(u: Universe, a: Activity, r: Activity, e: Effect, c: Component, x: seq<Component>,
                      y: seq<Component>)
    requires Mirrors(u, a, r) && SameCounts(u, x, y)
    ensures AssetBucketFor(u, r, Inverted(e), c, CountIn(y, u.inside), |y|)
            == AssetBucketFor(u, a, e, c, CountIn(x, u.inside), |x|)
  {
    hide AllIn, CountIn;
  }

  lemma PhysicalMirrors(u: Universe, a: Activity, r: Activity, e: Effect, c: Component, x: seq<Component>,
                        y: seq<Component>)
    requires Mirrors(u, a, r) && SameCounts(u, x, y)
    ensures Physical(u, r, y, Inverted(e), c) == Opposite(Physical(u, a, x, e, c))
  {
    hide AssetBucketFor, EffectAmount, ReturnAssociation, PotentialCapital, DietzCapital, MapSign, AllIn, CountIn;
    AmountMirrors(u, a, r, e, c);
    SignMirrors(u, e, c.account, EffectAmount(u, a, e, c));
    BucketMirrors(u, a, r, e, c, x, y);
    CapitalMirrors(u, a, r, e, MapSign(u, e, c.account, EffectAmount(u, a, e, c)), c, x, y);
  }

  lemma ProjectedMirrors(u: Universe, a: Activity, r: Activity, e: Effect, account: string, at: Option<Component>)
    requires Mirrors(u, a, r)
    ensures |Projected(u, r, Inverted(e), account, at)| == |Projected(u, a, e, account, at)| <= 1
    ensures Projected(u, a, e, account, at) != []
            ==> Projected(u, r, Inverted(e), account, at)[0] == Opposite(Projected(u, a, e, account, at)[0])
  {
    hide AssociatedAmount, ReturnAssociation, MapSign;
    var c := if at.Some? then at.value else NO_COMPONENT;
    AmountMirrors(u, a, r, e, c);
    var association := ReturnAssociation(a, e, c);
    if association.Some? && association.value.1.Some? && u.ownerOf(association.value.1.value).Some? {
      var owner := u.ownerOf(association.value.1.value).value;
      AmountMirrors(u, a, r, e, owner);
      SignMirrors(u, e, account, AssociatedAmount(u, a, e, owner));
    }
  }

  /** Summing any measure over the undo's leg is summing its opposite over the leg. */
  lemma LegMirrors(u: Universe, a: Activity, r: Activity, e: Effect, x: seq<Component>, y: seq<Component>,
                   f: Classified -> real, g: Classified -> real)
    requires Mirrors(u, a, r) && SameCounts(u, x, y) && forall c :: g(Opposite(c)) == f(c)
    ensures SumOver(Leg(u, r, y, Inverted(e)), g) == SumOver(Leg(u, a, x, e), f)
  {
    hide Physical, Projected, SumOver, Opposite;
    if !e.target.HoldingCost? {
      var c := u.componentOf(e);
      var account := if c.Some? then c.value.account else "";
      var inside := c.Some? && u.inside(c.value);
      var p, p' := Projected(u, a, e, account, c), Projected(u, r, Inverted(e), account, c);
      ProjectedMirrors(u, a, r, e, account, c);
      SumOneOrNone(p, p', f, g);
      var own := if inside then [Physical(u, a, x, e, c.value)] else [];
      var own' := if inside then [Physical(u, r, y, Inverted(e), c.value)] else [];
      if inside { PhysicalMirrors(u, a, r, e, c.value, x, y); }
      SumOneOrNone(own, own', f, g);
      SumAppend(own, p, f);
      SumAppend(own', p', g);
      assert Leg(u, a, x, e) == own + p && Leg(u, r, y, Inverted(e)) == own' + p';
    } else {
      SumZero([], f);
      SumZero([], g);
    }
  }

  lemma SumOneOrNone(x: seq<Classified>, y: seq<Classified>, f: Classified -> real, g: Classified -> real)
    requires |x| == |y| <= 1 && (x != [] ==> y[0] == Opposite(x[0])) && forall c :: g(Opposite(c)) == f(c)
    ensures SumOver(x, f) == SumOver(y, g)
  {
    if x != [] {
      assert SumOver(x, f) == f(x[0]) && SumOver(y, g) == g(y[0]);
    }
  }

  lemma {:induction false} LegsAppend(u: Universe, a: Activity, endpoints: seq<Component>, x: seq<Effect>,
                                      y: seq<Effect>)
    ensures Legs(u, a, endpoints, x + y) == Legs(u, a, endpoints, x) + Legs(u, a, endpoints, y)
    decreases |y|
  {
    hide Leg;
    if y == [] {
      assert x + y == x;
    } else {
      var n := |y| - 1;
      assert (x + y)[..|x + y| - 1] == x + y[..n];
      LegsAppend(u, a, endpoints, x, y[..n]);
    }
  }

  lemma LegsOfOne(u: Universe, a: Activity, endpoints: seq<Component>, e: Effect)
    ensures Legs(u, a, endpoints, [e]) == Leg(u, a, endpoints, e)
  {
    hide Leg;
    assert [e][..0] == [];
  }

  lemma {:induction false} LegsMirror(u: Universe, a: Activity, r: Activity, effects: seq<Effect>, x: seq<Component>,
                                      y: seq<Component>, f: Classified -> real, g: Classified -> real)
    requires Mirrors(u, a, r) && SameCounts(u, x, y) && forall c :: g(Opposite(c)) == f(c)
    ensures SumOver(Legs(u, r, y, InvertedAll(effects)), g) == SumOver(Legs(u, a, x, effects), f)
  {
    hide Leg, SumOver, Opposite, Mirrors, SameCounts, Inverted;
    if effects == [] {
      SumZero([], f);
      SumZero([], g);
    } else {
      var e, rest := effects[0], effects[1..];
      assert effects == [e] + rest;
      LegsMirror(u, a, r, rest, x, y, f, g);
      LegMirrors(u, a, r, e, x, y, f, g);
      LegsAppend(u, a, x, [e], rest);
      LegsOfOne(u, a, x, e);
      SumAppend(Leg(u, a, x, e), Legs(u, a, x, rest), f);
      LegsAppend(u, r, y, InvertedAll(rest), [Inverted(e)]);
      LegsOfOne(u, r, y, Inverted(e));
      SumAppend(Legs(u, r, y, InvertedAll(rest)), Leg(u, r, y, Inverted(e)), g);
    }
  }

  // ----- An undo has the same endpoints

  lemma {:induction false} EndpointsAppend(u: Universe, x: seq<Effect>, y: seq<Effect>)
    ensures Endpoints(u, x + y) == Endpoints(u, x) + Endpoints(u, y)
  {
    if x == [] {
      assert x + y == y;
    } else {
      assert (x + y)[1..] == x[1..] + y;
      EndpointsAppend(u, x[1..], y);
    }
  }

  lemma {:induction false} CountAppend(x: seq<Component>, y: seq<Component>, inside: Component -> bool)
    ensures CountIn(x + y, inside) == CountIn(x, inside) + CountIn(y, inside)
  {
    if x == [] {
      assert x + y == y;
    } else {
      assert (x + y)[1..] == x[1..] + y;
      CountAppend(x[1..], y, inside);
    }
  }

  lemma {:induction false} AllInIsCount(x: seq<Component>, inside: Component -> bool)
    ensures CountIn(x, inside) <= |x|
    ensures CountIn(x, inside) == |x| <==> forall i :: 0 <= i < |x| ==> inside(x[i])
  {
    if x != [] {
      AllInIsCount(x[1..], inside);
      assert forall i :: 1 <= i < |x| ==> x[i] == x[1..][i - 1];
      assert (forall i :: 0 <= i < |x[1..]| ==> inside(x[1..][i])) <==> forall i :: 1 <= i < |x| ==> inside(x[i]) by {
        forall i | 0 <= i < |x[1..]| ensures x[1..][i] == x[i + 1] {}
      }
    }
  }

  lemma {:induction false} UndoEndpoints(u: Universe, effects: seq<Effect>, inside: Component -> bool)
    requires forall e :: u.componentOf(Inverted(e)) == u.componentOf(e)
    ensures |Endpoints(u, InvertedAll(effects))| == |Endpoints(u, effects)|
    ensures CountIn(Endpoints(u, InvertedAll(effects)), inside) == CountIn(Endpoints(u, effects), inside)
  {
    if effects != [] {
      var e, rest := effects[0], effects[1..];
      UndoEndpoints(u, rest, inside);
      EndpointsAppend(u, InvertedAll(rest), [Inverted(e)]);
      EndpointsAppend(u, [e], rest);
      assert effects == [e] + rest;
      assert Endpoints(u, [Inverted(e)]) == Endpoints(u, [e]) by { assert [Inverted(e)][1..] == [] && [e][1..] == []; }
      CountAppend(Endpoints(u, InvertedAll(rest)), Endpoints(u, [Inverted(e)]), inside);
      CountAppend(Endpoints(u, [e]), Endpoints(u, rest), inside);
    }
  }

  lemma UndoCounts(u: Universe, effects: seq<Effect>)
    requires forall e :: u.componentOf(Inverted(e)) == u.componentOf(e)
    ensures SameCounts(u, Endpoints(u, effects), Endpoints(u, InvertedAll(effects)))
  {
    hide Endpoints, CountIn;
    var x, y := Endpoints(u, effects), Endpoints(u, InvertedAll(effects));
    UndoEndpoints(u, effects, u.inside);
    UndoEndpoints(u, effects, u.invested);
    AllInIsCount(x, u.inside);
    AllInIsCount(y, u.inside);
    AllInIsCount(x, u.invested);
    AllInIsCount(y, u.invested);
  }

  lemma {:induction false} UndoHasQuantityLeg(effects: seq<Effect>, holding: string)
    requires exists i :: 0 <= i < |effects| && IsQuantityLeg(effects[i], holding)
    ensures QuantityLeg(InvertedAll(effects), holding).Some?
  {
    var i :| 0 <= i < |effects| && IsQuantityLeg(effects[i], holding);
    if i == 0 {
      QuantityLegIn(InvertedAll(effects[1..]), [Inverted(effects[0])], holding);
    } else {
      assert effects[1..][i - 1] == effects[i];
      UndoHasQuantityLeg(effects[1..], holding);
      QuantityLegIn(InvertedAll(effects[1..]), [Inverted(effects[0])], holding);
    }
  }

  lemma {:induction false} QuantityLegIn(x: seq<Effect>, y: seq<Effect>, holding: string)
    ensures QuantityLeg(x, holding).Some? || QuantityLeg(y, holding).Some? ==> QuantityLeg(x + y, holding).Some?
  {
    if x == [] {
      assert x + y == y;
    } else {
      assert (x + y)[1..] == x[1..] + y;
      QuantityLegIn(x[1..], y, holding);
    }
  }

  lemma ReportedMirrors(u: Universe, a: Activity, at: int)
    requires IsUndoable(u, a, at)
    ensures var r := Reported(UndoOf(a, at), a); Mirrors(u, a, r) && r.effects == InvertedAll(a.effects)
  {
    hide QuantityLeg, InvertedAll, Inverted;
    if a.trade.Some? { UndoHasQuantityLeg(a.effects, a.trade.value.holding); }
  }

  // ----- The pair cancels

  function Signed(c: Option<real>): real {
    if c.Some? then c.value else 0.0
  }

  function Dietz(): Classified -> real {
    (c: Classified) => Signed(c.dietz)
  }

  function Minus(f: Classified -> real): Classified -> real {
    (c: Classified) => -f(c)
  }

  lemma {:induction false} SumOfMinus(legs: seq<Classified>, f: Classified -> real)
    ensures SumOver(legs, Minus(f)) == -SumOver(legs, f)
  {
    if legs != [] { SumOfMinus(legs[1..], f); }
  }

  /** Before any spread is told apart, an activity and its undo cancel in every measure that
      changes sign with the amounts. */
  lemma LegsCancel(u: Universe, a: Activity, at: int, f: Classified -> real)
    requires IsUndoable(u, a, at) && forall c :: f(Opposite(c)) == -f(c)
    ensures var r := Reported(UndoOf(a, at), a);
            SumOver(Legs(u, r, Endpoints(u, r.effects), r.effects), f)
            == -SumOver(Legs(u, a, Endpoints(u, a.effects), a.effects), f)
  {
    hide SumOver, Legs, Endpoints, Opposite, Reported, UndoOf, Mirrors, SameCounts, InvertedAll;
    ReportedMirrors(u, a, at);
    UndoCounts(u, a.effects);
    var r := Reported(UndoOf(a, at), a);
    LegsMirror(u, a, r, a.effects, Endpoints(u, a.effects), Endpoints(u, r.effects), Minus(f), f);
    SumOfMinus(Legs(u, a, Endpoints(u, a.effects), a.effects), f);
  }

  /** An activity other than a currency conversion and its undo at the same rates cancel in
      every bucket, every return component and the capital. */
  lemma UndoCancels(u: Universe, a: Activity, at: int, k: Bucket, c: ReturnComponent)
    requires IsUndoable(u, a, at) && !a.kind.FXConversion?
    ensures var r := Reported(UndoOf(a, at), a);
            && SumOver(Classify(u, a), InBucket(k)) + SumOver(Classify(u, r), InBucket(k)) == 0.0
            && SumOver(Classify(u, a), InReturn(c)) + SumOver(Classify(u, r), InReturn(c)) == 0.0
            && SumOver(Classify(u, a), Dietz()) + SumOver(Classify(u, r), Dietz()) == 0.0
  {
    hide SumOver, Legs, Endpoints;
    LegsCancel(u, a, at, InBucket(k));
    LegsCancel(u, a, at, InReturn(c));
    LegsCancel(u, a, at, Dietz());
  }

  // ----- Undoing a conversion

  function CountsNeutral(): Classified -> real {
    (c: Classified) => if IsNeutralCash(c) then 1.0 else 0.0
  }

  function CountsUnknown(): Classified -> real {
    (c: Classified) => if IsNeutralCash(c) && c.amount.None? then 1.0 else 0.0
  }

  function CountsAdded(added: bool): Classified -> real {
    (c: Classified) => if IsNeutralCash(c) && c.added == added then 1.0 else 0.0
  }

  /** Whether a spread can be told is a matter of counting neutral legs. */
  lemma {:induction false} SpreadIsCounted(legs: seq<Classified>)
    ensures NeutralLegs(legs) as real == SumOver(legs, CountsNeutral())
    ensures AllKnown(legs) <==> SumOver(legs, CountsUnknown()) == 0.0
    ensures Receiver(legs) >= 0 <==> SumOver(legs, CountsAdded(true)) != 0.0
    ensures SumOver(legs, CountsUnknown()) >= 0.0 && SumOver(legs, CountsAdded(true)) >= 0.0
  {
    hide SumOver;
    if legs == [] {
      SumZero(legs, CountsNeutral());
      SumZero(legs, CountsUnknown());
      SumZero(legs, CountsAdded(true));
    } else {
      var n := |legs| - 1;
      SpreadIsCounted(legs[..n]);
      assert legs[..n + 1] == legs;
      SumLast(legs, n, CountsNeutral());
      SumLast(legs, n, CountsUnknown());
      SumLast(legs, n, CountsAdded(true));
      assert AllKnown(legs) <==> AllKnown(legs[..n]) && (IsNeutralCash(legs[n]) ==> legs[n].amount.Some?);
    }
  }

  /** Whether the classification looks for a spread: inside the universe, in base valuation. */
  predicate Separates(u: Universe, a: Activity) {
    u.baseValuation && AllIn(Endpoints(u, a.effects), u.inside)
  }

  /** The legs of an activity before any spread is told apart. */
  function BareLegs(u: Universe, a: Activity): seq<Classified> {
    Legs(u, a, Endpoints(u, a.effects), a.effects)
  }

  /** Neutral cash goes both ways. */
  predicate GoesBothWays(u: Universe, a: Activity) {
    SumOver(BareLegs(u, a), CountsAdded(true)) != 0.0 && SumOver(BareLegs(u, a), CountsAdded(false)) != 0.0
  }

  /** Whether a spread is told apart, and how much. */
  predicate Tells(u: Universe, a: Activity) {
    Separates(u, a) && HasSpread(BareLegs(u, a))
  }

  function SpreadOf(u: Universe, a: Activity): real {
    SumOver(BareLegs(u, a), NeutralAmount())
  }

  /** The sum of any measure over a conversion. */
  lemma ConversionSum(u: Universe, a: Activity, f: Classified -> real)
    requires a.kind.FXConversion?
    ensures Tells(u, a) ==> 0 <= Receiver(BareLegs(u, a)) < |BareLegs(u, a)|
    ensures SumOver(Classify(u, a), f) == SumOver(BareLegs(u, a), f)
              + if !Tells(u, a) || SpreadOf(u, a) == 0.0 then 0.0
                else
                  var leg := BareLegs(u, a)[Receiver(BareLegs(u, a))];
                  f(Adjusted(leg, SpreadOf(u, a))) - f(leg) + f(Spread(u, leg.component, SpreadOf(u, a)))
  {
    hide SumOver, Legs, Endpoints, AllIn, AllKnown, NeutralLegs;
    if Tells(u, a) { SpreadSum(u, BareLegs(u, a), f); }
  }

  /** A conversion and its undo at the same rates tell the same spread, with opposite signs. */
  lemma SameSpread(u: Universe, a: Activity, at: int)
    requires IsUndoable(u, a, at) && a.kind.FXConversion? && a.trade.None? && (Separates(u, a) ==> GoesBothWays(u, a))
    ensures var r := Reported(UndoOf(a, at), a);
            && r.kind.FXConversion? && (Tells(u, r) <==> Tells(u, a)) && SpreadOf(u, r) == -SpreadOf(u, a)
            && (IsInternalKind(u, a) <==> IsInternalKind(u, r))
  {
    hide SumOver, Legs, Endpoints, Mirrors, SameCounts, InvertedAll, NeutralLegs, AllKnown, AllIn;
    var r := Reported(UndoOf(a, at), a);
    ReportedMirrors(u, a, at);
    UndoCounts(u, a.effects);
    CountsAreSame(u, Endpoints(u, a.effects), Endpoints(u, r.effects));
    LegsCancel(u, a, at, NeutralAmount());
    if Separates(u, a) {
      var x, y := Endpoints(u, a.effects), Endpoints(u, r.effects);
      LegsMirror(u, a, r, a.effects, x, y, CountsNeutral(), CountsNeutral());
      LegsMirror(u, a, r, a.effects, x, y, CountsUnknown(), CountsUnknown());
      LegsMirror(u, a, r, a.effects, x, y, CountsAdded(false), CountsAdded(true));
      SpreadIsCounted(BareLegs(u, a));
      SpreadIsCounted(BareLegs(u, r));
    }
  }

  predicate IsInternalKind(u: Universe, a: Activity) {
    AllIn(Endpoints(u, a.effects), u.invested)
  }

  lemma CountsAreSame(u: Universe, x: seq<Component>, y: seq<Component>)
    requires SameCounts(u, x, y)
    ensures (AllIn(x, u.inside) <==> AllIn(y, u.inside)) && (AllIn(x, u.invested) <==> AllIn(y, u.invested))
  {
  }

  /** A conversion and its undo at the same rates cancel in every bucket, the spread included. */
  lemma ConversionUndoCancels(u: Universe, a: Activity, at: int, k: Bucket)
    requires IsUndoable(u, a, at) && a.kind.FXConversion? && a.trade.None? && (Separates(u, a) ==> GoesBothWays(u, a))
    ensures SumOver(Classify(u, a), InBucket(k)) + SumOver(Classify(u, Reported(UndoOf(a, at), a)), InBucket(k)) == 0.0
  {
    hide SumOver, Legs, Endpoints, IsUndoable, Reported, UndoOf, Classify, Tells, GoesBothWays, Separates;
    var r := Reported(UndoOf(a, at), a);
    SameSpread(u, a, at);
    LegsCancel(u, a, at, InBucket(k));
    SpreadInBucket(u, a, k);
    SpreadInBucket(u, r, k);
  }

  lemma SpreadInBucket(u: Universe, a: Activity, k: Bucket)
    requires a.kind.FXConversion?
    ensures SumOver(Classify(u, a), InBucket(k))
         == SumOver(BareLegs(u, a), InBucket(k))
             + if Tells(u, a) && k == FxConversionSpread then SpreadOf(u, a) else 0.0
  {
    hide SumOver, Legs, Endpoints, NeutralLegs, AllKnown, AllIn, Classify, SpreadOf;
    ConversionSum(u, a, InBucket(k));
    LegsAreBare(u, a, Endpoints(u, a.effects), a.effects);
  }
}
