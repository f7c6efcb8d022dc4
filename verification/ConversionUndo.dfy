/** What a currency conversion and its undo leave in the returns and in the capital. */
module ConversionUndo {
  import opened AnalysisModel
  import opened CapitalLaws
  import opened Classifier
  import opened ClassifierLaws
  import opened Sums
  import opened TransferLaws

  /** A conversion that classifies alone cancels with its undo in every measure. */
  lemma BoundaryUndoCancels(u: Universe, a: Activity, at: int, f: Classified -> real)
    requires IsUndoable(u, a, at) && a.kind.FXConversion? && a.trade.None? && !Separates(u, a)
    requires forall c :: f(Opposite(c)) == -f(c)
    ensures SumOver(Classify(u, a), f) + SumOver(Classify(u, Reported(UndoOf(a, at), a)), f) == 0.0
  {
    hide SumOver, Legs, Endpoints, IsUndoable, Reported, UndoOf, Classify, HasSpread, Opposite, Separates, GoesBothWays;
    var r := Reported(UndoOf(a, at), a);
    SameSpread(u, a, at);
    LegsCancel(u, a, at, f);
    NotTold(u, a);
    ConversionSum(u, a, f);
    ConversionSum(u, r, f);
  }

  lemma NotTold(u: Universe, a: Activity)
    requires !Separates(u, a)
    ensures !Tells(u, a)
  {
  }

  // ----- The capital of a neutral leg

  /** A neutral leg of known amount is a flow of the universe when its component is invested and
      the conversion is not internal to the investments. */
  ghost predicate NeutralCapital(u: Universe, internal: bool, legs: seq<Classified>) {
    forall i :: 0 <= i < |legs| && IsNeutralCash(legs[i]) && legs[i].amount.Some? ==>
      && (legs[i].dietz.Some? <==> u.invested(legs[i].component) && !internal)
      && (internal ==> u.invested(legs[i].component))
  }

  lemma LegCapital(u: Universe, a: Activity, e: Effect)
    requires IsResolved(u) && a.kind.FXConversion? && a.trade.None? && (IsInternal(u, a) ==> Touches(u, [e]))
    ensures NeutralCapital(u, IsInternal(u, a), Leg(u, a, Endpoints(u, a.effects), e))
  {
    hide Endpoints, AllIn, CountIn, Converted, Projected, IsResolved, ReturnAssociation;
    var c := u.componentOf(e);
    assert [e][0] == e;
    NoConversionIncome(u, a, e, if c.Some? then c.value.account else "", c);
    if c.Some? && u.inside(c.value) && !e.target.HoldingCost? {
      if u.invested(c.value) { InvestedIsInside(u, c.value); }
      PhysicalCapital(u, a, e, c.value);
    }
  }

  lemma NoConversionIncome(u: Universe, a: Activity, e: Effect, account: string, c: Option<Component>)
    requires a.kind.FXConversion?
    ensures Projected(u, a, e, account, c) == []
  {
    hide AssociatedAmount, MapSign;
  }

  lemma PhysicalCapital(u: Universe, a: Activity, e: Effect, c: Component)
    requires a.kind.FXConversion? && a.trade.None?
             && (u.invested(c) ==> MayHoldCapital(u, c) && c.account in u.liabilities)
    ensures var leg := Physical(u, a, Endpoints(u, a.effects), e, c);
            leg.component == c
            && (IsNeutralCash(leg) && leg.amount.Some? ==> (leg.dietz.Some? <==> u.invested(c) && !IsInternal(u, a)))
  {
    hide Endpoints, AllIn, CountIn, Converted, IsLiability, MayHoldCapital;
  }

  lemma {:induction false} LegsCapital(u: Universe, a: Activity, effects: seq<Effect>)
    requires IsResolved(u) && a.kind.FXConversion? && a.trade.None? && (IsInternal(u, a) ==> Touches(u, effects))
    ensures NeutralCapital(u, IsInternal(u, a), Legs(u, a, Endpoints(u, a.effects), effects))
  {
    hide Leg, IsInternal, Endpoints, IsResolved;
    if effects != [] {
      LegsCapital(u, a, effects[..|effects| - 1]);
      LegCapital(u, a, effects[|effects| - 1]);
    }
  }

  // ----- What is left

  /** The component that receives cash in a conversion whose spread is told apart. */
  function ReceivingComponent(u: Universe, a: Activity): Component
    requires Tells(u, a)
  {
    BareLegs(u, a)[Receiver(BareLegs(u, a))].component
  }

  /** The spread as far as its component is invested. */
  function InvestedSpread(u: Universe, a: Activity): real {
    if Tells(u, a) && u.invested(ReceivingComponent(u, a)) then SpreadOf(u, a) else 0.0
  }

  lemma SpreadInReturn(u: Universe, a: Activity, k: ReturnComponent)
    requires a.kind.FXConversion?
    ensures SumOver(Classify(u, a), InReturn(k)) == SumOver(BareLegs(u, a), InReturn(k))
            + if k.ReturnFXConversionSpread? then InvestedSpread(u, a) else 0.0
  {
    hide SumOver, Legs, Endpoints, HasSpread, AllIn, Classify, SpreadOf;
    ConversionSum(u, a, InReturn(k));
  }

  /** Telling the spread apart takes it out of the capital of an invested receiver. */
  lemma SpreadInCapital(u: Universe, a: Activity)
    requires IsResolved(u) && a.kind.FXConversion? && a.trade.None?
    ensures SumOver(Classify(u, a), Dietz()) == SumOver(BareLegs(u, a), Dietz())
            - if IsInternal(u, a) then 0.0 else InvestedSpread(u, a)
    ensures Tells(u, a) && IsInternal(u, a) ==> u.invested(ReceivingComponent(u, a))
  {
    hide SumOver, Legs, Endpoints, AllIn, Classify, IsInternal, IsResolved, NeutralLegs;
    if IsInternal(u, a) { InternalTouches(u, a); }
    LegsCapital(u, a, a.effects);
    ConversionSum(u, a, Dietz());
    if Tells(u, a) {
      var legs := BareLegs(u, a);
      TwoNeutral(legs, (x: real) => x);
      assert IsNeutralCash(legs[Receiver(legs)]);
    }
  }

  lemma InternalAlike(u: Universe, a: Activity)
    requires a.kind.FXConversion?
    ensures IsInternal(u, a) <==> IsInternalKind(u, a)
  {
    hide Endpoints, AllIn;
  }

  /** A conversion and its undo leave in the spread's return component, and take from the
      capital, the spread of the one as far as its receiver is invested less that of the other;
      every other return component cancels. */
  lemma ConversionUndoLeaves(u: Universe, a: Activity, at: int, k: ReturnComponent)
    requires IsResolved(u) && IsUndoable(u, a, at) && a.kind.FXConversion? && a.trade.None?
             && (Separates(u, a) ==> GoesBothWays(u, a))
    ensures var r := Reported(UndoOf(a, at), a);
            var left := InvestedSpread(u, a) + InvestedSpread(u, r);
            && SumOver(Classify(u, a), InReturn(k)) + SumOver(Classify(u, r), InReturn(k))
            == (if k.ReturnFXConversionSpread? then left else 0.0)
            && SumOver(Classify(u, a), Dietz()) + SumOver(Classify(u, r), Dietz()) == -left
  {
    hide SumOver, Legs, Endpoints, IsUndoable, Reported, UndoOf, Classify, Tells, GoesBothWays, Separates, IsResolved,
         IsInternalKind, IsInternal, Opposite;
    var r := Reported(UndoOf(a, at), a);
    SameSpread(u, a, at);
    ReturnsAndCapitalAreOdd(k);
    LegsCancel(u, a, at, InReturn(k));
    LegsCancel(u, a, at, Dietz());
    SpreadInReturn(u, a, k);
    SpreadInReturn(u, r, k);
    UndoHasNoTrade(a, at);
    SpreadInCapital(u, a);
    SpreadInCapital(u, r);
    InternalAlike(u, a);
    InternalAlike(u, r);
  }

  lemma UndoHasNoTrade(a: Activity, at: int)
    requires a.trade.None?
    ensures Reported(UndoOf(a, at), a).trade.None?
  {
  }

  lemma ReturnsAndCapitalAreOdd(k: ReturnComponent)
    ensures forall c :: InReturn(k)(Opposite(c)) == -InReturn(k)(c)
    ensures forall c :: Dietz()(Opposite(c)) == -Dietz()(c)
  {
  }

  /** So the pair cancels in every return component and in the capital exactly when no spread is
      told apart, or none is there, or both receivers are invested alike. */
  lemma ConversionUndoCancelsExactly(u: Universe, a: Activity, at: int)
    requires IsResolved(u) && IsUndoable(u, a, at) && a.kind.FXConversion? && a.trade.None?
             && (Separates(u, a) ==> GoesBothWays(u, a))
    ensures var r := Reported(UndoOf(a, at), a);
            && (Tells(u, r) <==> Tells(u, a))
            && ((forall k :: SumOver(Classify(u, a), InReturn(k)) + SumOver(Classify(u, r), InReturn(k)) == 0.0)
                <==> !Tells(u, a) || SpreadOf(u, a) == 0.0
                     || u.invested(ReceivingComponent(u, a)) == u.invested(ReceivingComponent(u, r)))
            && (SumOver(Classify(u, a), Dietz()) + SumOver(Classify(u, r), Dietz()) == 0.0
                <==> !Tells(u, a) || SpreadOf(u, a) == 0.0
                     || u.invested(ReceivingComponent(u, a)) == u.invested(ReceivingComponent(u, r)))
  {
    hide SumOver, IsUndoable, Reported, UndoOf, Classify, Tells, GoesBothWays, Separates, IsResolved, SpreadOf,
         ReceivingComponent, IsInternalKind;
    var r := Reported(UndoOf(a, at), a);
    SameSpread(u, a, at);
    forall k ensures SumOver(Classify(u, a), InReturn(k)) + SumOver(Classify(u, r), InReturn(k))
                     == if k.ReturnFXConversionSpread? then InvestedSpread(u, a) + InvestedSpread(u, r) else 0.0 {
      ConversionUndoLeaves(u, a, at, k);
    }
    ConversionUndoLeaves(u, a, at, ReturnFXConversionSpread);
  }

  // ----- Conversions as recorded

  function LegAt(u: Universe, a: Activity, e: Effect): Classified
    requires u.componentOf(e).Some?
  {
    Physical(u, a, Endpoints(u, a.effects), e, u.componentOf(e).value)
  }

  /** Inside the universe every effect of a conversion has one leg. */
  lemma {:induction false} LegsOneEach(u: Universe, a: Activity, effects: seq<Effect>)
    requires a.kind.FXConversion? && IsRecorded(u, a) && AllIn(Endpoints(u, a.effects), u.inside)
    requires forall e :: e in effects ==> e in a.effects
    ensures var legs := Legs(u, a, Endpoints(u, a.effects), effects);
            && |legs| == |effects|
            && forall i ::
                 0 <= i < |legs| ==> u.componentOf(effects[i]).Some? && legs[i] == LegAt(u, a, effects[i])
  {
    hide Leg, IsRecorded, Endpoints, AllIn, Physical;
    if effects != [] {
      var n := |effects| - 1;
      LegsOneEach(u, a, effects[..n]);
      assert effects[n] in effects;
      ConversionLeg(u, a, effects[n]);
      forall i | 0 <= i < n ensures effects[..n][i] == effects[i] {}
    }
  }

  /** The legs of a conversion, told by the direction of its principal effects. */
  ghost predicate ReadsAs(a: Activity, legs: seq<Classified>) {
    |legs| == |a.effects| && forall i :: 0 <= i < |legs| ==>
      legs[i].cash && legs[i].added == a.effects[i].added && legs[i].neutral == IsPrincipalLeg(a.effects[i])
  }

  lemma LegsRead(u: Universe, a: Activity)
    requires a.kind.FXConversion? && IsRecorded(u, a) && AllIn(Endpoints(u, a.effects), u.inside)
    ensures ReadsAs(a, BareLegs(u, a))
    ensures forall i ::
              0 <= i < |a.effects|
              ==> u.componentOf(a.effects[i]).Some? && BareLegs(u, a)[i].component == u.componentOf(a.effects[i]).value
  {
    hide Legs, IsRecorded, Endpoints, AllIn, Physical;
    LegsOneEach(u, a, a.effects);
    forall i | 0 <= i < |a.effects|
      ensures BareLegs(u, a)[i].cash && BareLegs(u, a)[i].added == a.effects[i].added
              && BareLegs(u, a)[i].neutral == IsPrincipalLeg(a.effects[i])
      ensures BareLegs(u, a)[i].component == u.componentOf(a.effects[i]).value
    {
      ConversionLeg(u, a, a.effects[i]);
    }
  }

  /** The last received cash is at a principal effect after which no other is received. */
  lemma {:induction false} ReceiverAt(legs: seq<Classified>, i: nat)
    requires i < |legs| && IsNeutralCash(legs[i]) && legs[i].added
    requires forall j :: i < j < |legs| ==> !(IsNeutralCash(legs[j]) && legs[j].added)
    ensures Receiver(legs) == i
  {
    if i < |legs| - 1 { ReceiverAt(legs[..|legs| - 1], i); }
  }

  lemma {:induction false} CountsSome(legs: seq<Classified>, added: bool, i: nat)
    requires i < |legs| && IsNeutralCash(legs[i]) && legs[i].added == added
    ensures SumOver(legs, CountsAdded(added)) > 0.0
  {
    hide SumOver;
    assert legs[..|legs|] == legs;
    CountsUpTo(legs, added, i, |legs|);
  }

  lemma {:induction false} CountsUpTo(legs: seq<Classified>, added: bool, i: nat, n: nat)
    requires n <= |legs| && i < |legs| && IsNeutralCash(legs[i]) && legs[i].added == added
    ensures SumOver(legs[..n], CountsAdded(added)) >= if i < n then 1.0 else 0.0
  {
    hide SumOver;
    if n == 0 {
      SumZero([], CountsAdded(added));
    } else {
      CountsUpTo(legs, added, i, n - 1);
      SumLast(legs, n - 1, CountsAdded(added));
    }
  }

  lemma ReceiverOfRecorded(u: Universe, a: Activity)
    requires a.kind.FXConversion? && IsRecorded(u, a) && Separates(u, a) && InOrder(a)
    ensures GoesBothWays(u, a) && Receiver(BareLegs(u, a)) == 1
    ensures u.componentOf(a.effects[1]) == Some(BareLegs(u, a)[1].component)
  {
    hide Legs, IsRecorded, Endpoints, AllIn, SumOver, Receiver;
    LegsRead(u, a);
    var legs := BareLegs(u, a);
    ReceiverAt(legs, 1);
    CountsSome(legs, true, 1);
    CountsSome(legs, false, 0);
  }

  lemma UndoneEffects(effects: seq<Effect>)
    requires 2 <= |effects| <= 3
    ensures var undone := InvertedAll(effects);
            && |undone| == |effects| && undone[|undone| - 1] == Inverted(effects[0])
            && undone[|undone| - 2] == Inverted(effects[1])
            && (|undone| == 3 ==> undone[0] == Inverted(effects[2]))
  {
    assert effects[1..][0] == effects[1];
    assert |effects| == 3 ==> effects[1..][1..][0] == effects[2] && effects[1..][1..][1..] == [];
    assert |effects| == 2 ==> effects[1..][1..] == [];
    assert InvertedAll(effects) == InvertedAll(effects[1..][1..]) + [Inverted(effects[1])] + [Inverted(effects[0])];
  }

  lemma {:induction false} UndoneAreCash(u: Universe, effects: seq<Effect>)
    requires forall e :: u.componentOf(Inverted(e)) == u.componentOf(e)
    requires forall e :: e in effects ==> IsCashLeg(u, e)
    ensures forall e :: e in InvertedAll(effects) ==> IsCashLeg(u, e)
  {
    hide IsLiability;
    if effects != [] {
      UndoneAreCash(u, effects[1..]);
      assert IsCashLeg(u, effects[0]);
      assert IsCashLeg(u, Inverted(effects[0]));
    }
  }

  lemma UndoIsRecorded(u: Universe, a: Activity, at: int)
    requires IsUndoable(u, a, at) && a.kind.FXConversion? && IsRecorded(u, a) && InOrder(a)
    ensures var r := Reported(UndoOf(a, at), a);
            r.kind.FXConversion? && r.effects == InvertedAll(a.effects) && IsRecorded(u, r)
  {
    hide IsLiability, InvertedAll, Principals, IsCashLeg;
    UndoneEffects(a.effects);
    var undone := InvertedAll(a.effects);
    UndoneAreCash(u, a.effects);
    UndonePrincipals(undone);
    assert IsPrincipalLeg(undone[|undone| - 1]) && undone[|undone| - 1].added;
    assert Receives(undone);
  }

  lemma UndonePrincipals(effects: seq<Effect>)
    requires 2 <= |effects| <= 3 && IsPrincipalLeg(effects[|effects| - 1]) && IsPrincipalLeg(effects[|effects| - 2])
    requires |effects| == 3 ==> !IsPrincipalLeg(effects[0])
    ensures Principals(effects) == 2
  {
    var n := |effects|;
    assert effects[..n - 1][..n - 2] == effects[..n - 2];
    assert n == 3 ==> effects[..1][..0] == [];
    assert Principals(effects[..n - 2]) == 0;
    assert Principals(effects[..n - 1]) == 1;
  }

  lemma ReceiverOfUndone(u: Universe, a: Activity, at: int)
    requires IsUndoable(u, a, at) && a.kind.FXConversion? && IsRecorded(u, a) && Separates(u, a) && InOrder(a)
    ensures var r := Reported(UndoOf(a, at), a);
            && 0 <= Receiver(BareLegs(u, r)) < |BareLegs(u, r)|
            && u.componentOf(a.effects[0]) == Some(BareLegs(u, r)[Receiver(BareLegs(u, r))].component)
  {
    hide Legs, IsRecorded, Endpoints, AllIn, SumOver, Receiver, Reported, UndoOf, InvertedAll;
    var r := Reported(UndoOf(a, at), a);
    UndoIsRecorded(u, a, at);
    UndoneEffects(a.effects);
    ReceiverOfRecorded(u, a);
    SameSpread(u, a, at);
    UndoSeparates(u, a, at);
    LegsRead(u, r);
    ReceiverAt(BareLegs(u, r), |BareLegs(u, r)| - 1);
  }

  lemma UndoSeparates(u: Universe, a: Activity, at: int)
    requires IsUndoable(u, a, at)
    ensures Separates(u, Reported(UndoOf(a, at), a)) <==> Separates(u, a)
  {
    hide Endpoints, AllIn, InvertedAll, Mirrors;
    ReportedMirrors(u, a, at);
    UndoCounts(u, a.effects);
  }

  /** What a principal effect is worth in base currency. */
  function Worth(u: Universe, a: Activity, i: nat): Option<real>
    requires i < |a.effects|
  {
    if a.effects[i].money.None? then None else Converted(u, a.effects[i].money.value, a.at)
  }

  lemma AmountOfLeg(u: Universe, a: Activity, i: nat)
    requires a.kind.FXConversion? && IsRecorded(u, a) && AllIn(Endpoints(u, a.effects), u.inside) && i < |a.effects|
    ensures i < |BareLegs(u, a)|
    ensures var amount := BareLegs(u, a)[i].amount;
            (amount.Some? <==> Worth(u, a, i).Some?)
            && (amount.Some? ==> amount.value == Directed(a.effects[i], Worth(u, a, i).value))
  {
    hide Legs, IsRecorded, Endpoints, AllIn, Converted, Physical;
    LegsOneEach(u, a, a.effects);
    var e := a.effects[i];
    ConversionLeg(u, a, e);
    IsCash(u, a, e);
    var same: real -> real := (x: real) => x;
    NeutralLegFlow(u, a, e, same);
  }

  lemma IsCash(u: Universe, a: Activity, e: Effect)
    requires a.kind.FXConversion? && IsRecorded(u, a) && e in a.effects
    ensures IsCashLeg(u, e)
  {
  }

  /** A recorded conversion inside the universe tells its spread when both rates are known, and the
      spread is what was received less what was paid. */
  lemma SpreadOfRecorded(u: Universe, a: Activity)
    requires a.kind.FXConversion? && IsRecorded(u, a) && Separates(u, a) && InOrder(a)
    ensures Tells(u, a) <==> Worth(u, a, 0).Some? && Worth(u, a, 1).Some?
    ensures Tells(u, a) ==> SpreadOf(u, a) == Worth(u, a, 1).value - Worth(u, a, 0).value
  {
    hide Legs, IsRecorded, Endpoints, AllIn, SumOver, Receiver, NeutralLegs, Converted, Worth;
    LegsRead(u, a);
    ReceiverOfRecorded(u, a);
    var legs := BareLegs(u, a);
    AmountOfLeg(u, a, 0);
    AmountOfLeg(u, a, 1);
    SumOfTwoOrThree(legs, NeutralAmount());
    NeutralsOf(legs);
    assert AllKnown(legs) <==> legs[0].amount.Some? && legs[1].amount.Some?;
  }

  lemma NeutralsOf(legs: seq<Classified>)
    requires 2 <= |legs| <= 3 && IsNeutralCash(legs[0]) && IsNeutralCash(legs[1])
             && (|legs| == 3 ==> !IsNeutralCash(legs[2]))
    ensures NeutralLegs(legs) == 2
  {
    assert legs[..2][..1] == legs[..1] && legs[..1][..0] == [];
    assert NeutralLegs(legs[..1]) == 1 && NeutralLegs(legs[..2]) == 2;
    assert |legs| == 2 ==> legs[..2] == legs;
    assert |legs| == 3 ==> legs[..|legs| - 1] == legs[..2];
  }

  /** A conversion sells and buys inside one account, whose cash balances are of one class. */
  predicate InOneAccount(u: Universe, a: Activity)
    requires |a.effects| >= 2
  {
    && u.componentOf(a.effects[0]).Some? && u.componentOf(a.effects[1]).Some?
    && (var sold, bought := u.componentOf(a.effects[0]).value, u.componentOf(a.effects[1]).value;
        && sold.account == bought.account && sold.cash == bought.cash && sold.instrument.None?
        && bought.instrument.None?)
  }

  /** Cash is invested by account, so both sides of a conversion inside the universe are or neither is. */
  lemma SidesAreInvestedAlike(u: Universe, a: Activity, includeCash: bool)
    requires SelectsInvestments(u, includeCash) && a.kind.FXConversion? && IsRecorded(u, a) && InOrder(a)
    requires InOneAccount(u, a) && Separates(u, a)
    ensures u.invested(u.componentOf(a.effects[0]).value) == u.invested(u.componentOf(a.effects[1]).value)
  {
    hide Endpoints, AllIn, IsRecorded, IsLiability;
    ConversionLeg(u, a, a.effects[0]);
    ConversionLeg(u, a, a.effects[1]);
  }

  /** A recorded conversion cancels with its undo in every bucket, every return component and the
      capital. */
  lemma RecordedConversionCancels(u: Universe, a: Activity, at: int, includeCash: bool, k: Bucket, c: ReturnComponent)
    requires SelectsInvestments(u, includeCash) && IsUndoable(u, a, at)
    requires a.kind.FXConversion? && IsRecorded(u, a) && InOrder(a) && InOneAccount(u, a)
    ensures var r := Reported(UndoOf(a, at), a);
            && SumOver(Classify(u, a), InBucket(k)) + SumOver(Classify(u, r), InBucket(k)) == 0.0
            && SumOver(Classify(u, a), InReturn(c)) + SumOver(Classify(u, r), InReturn(c)) == 0.0
            && SumOver(Classify(u, a), Dietz()) + SumOver(Classify(u, r), Dietz()) == 0.0
  {
    hide SumOver, IsUndoable, Reported, UndoOf, Classify, BareLegs, GoesBothWays, Separates, IsResolved,
         SelectsInvestments, SpreadOf, Principals, HasSpread, IsLiability, Receiver;
    SelectionIsResolved(u, includeCash);
    if Separates(u, a) {
      ReceiverOfRecorded(u, a);
      ReceiverOfUndone(u, a, at);
      SidesAreInvestedAlike(u, a, includeCash);
    }
    ConversionUndoCancels(u, a, at, k);
    ConversionUndoCancelsExactly(u, a, at);
    if !Separates(u, a) { NotTold(u, a); }
  }

  // ----- Why the receivers must be invested alike

  /** Dollars are invested and euros, worth two, are not; a selection by account never does that. */
  function DollarsOnly(): Universe {
    Household().(invested := (c: Component) => c.cash && c.currency == "USD" && c.account == "A")
  }

  /** Ten dollars are converted to four euros, and back. */
  function Exchange(): Activity {
    Activity(FXConversion, OtherReason, 0, [SENT, RECEIVED.(account := "A", money := Some(Money(4.0, "EUR")))], None,
             None)
  }

  lemma ExchangeIsRecorded()
    ensures IsRecorded(DollarsOnly(), Exchange()) && InOrder(Exchange()) && IsUndoable(DollarsOnly(), Exchange(), 1)
    ensures IsResolved(DollarsOnly()) && Separates(DollarsOnly(), Exchange())
    ensures Worth(DollarsOnly(), Exchange(), 0) == Some(10.0) && Worth(DollarsOnly(), Exchange(), 1) == Some(8.0)
  {
    hide Principals, Endpoints, AllIn;
    HasTwoPrincipals(Exchange());
    var u := DollarsOnly().(invested := DollarsOnly().inside);
    AllInvested(u, Exchange().effects);
    EndpointsAlike(u, DollarsOnly(), Exchange().effects);
  }

  lemma {:induction false} EndpointsAlike(u: Universe, v: Universe, effects: seq<Effect>)
    requires u.componentOf == v.componentOf
    ensures Endpoints(u, effects) == Endpoints(v, effects)
  {
    if effects != [] { EndpointsAlike(u, v, effects[1..]); }
  }

  /** In such a universe the undo gives the spread of two to the dollars, while the conversion gave it to the euros,
      where no return is counted. */
  lemma UnevenExchangeStays()
    ensures var u, a := DollarsOnly(), Exchange();
            var r := Reported(UndoOf(a, 1), a);
            && SumOver(Classify(u, a), InReturn(ReturnFXConversionSpread))
                + SumOver(Classify(u, r), InReturn(ReturnFXConversionSpread)) == 2.0
            && SumOver(Classify(u, a), Dietz()) + SumOver(Classify(u, r), Dietz()) == -2.0
  {
    hide SumOver, IsUndoable, Reported, UndoOf, Classify, BareLegs, GoesBothWays, Separates, IsResolved, SpreadOf,
         HasSpread, IsRecorded, Tells, Worth, Receiver;
    var u, a := DollarsOnly(), Exchange();
    ExchangeIsRecorded();
    SpreadOfRecorded(u, a);
    ReceiverOfRecorded(u, a);
    ReceiverOfUndone(u, a, 1);
    SameSpread(u, a, 1);
    ConversionUndoLeaves(u, a, 1, ReturnFXConversionSpread);
  }
}
