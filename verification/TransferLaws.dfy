/** When the groups of a movement agree with the universe, what a cash transfer adds to the
    totals on either side of the boundary, and movements on which the two counts differ. */
module TransferLaws {
  import opened AnalysisModel
  import opened CapitalLaws
  import opened Classifier
  import ClassifierLaws
  import opened Sums

  function Exactly(): real -> real {
    (x: real) => x
  }

  /** The legs of a movement as the ledger writes them: what leaves, what arrives, and a fee. */
  predicate InOrder(a: Activity) {
    && 2 <= |a.effects| <= 3 && !a.effects[0].added && a.effects[1].added && (|a.effects| == 3 ==> !a.effects[2].added)
    && (forall i :: 0 <= i < |a.effects| ==> (i < 2 <==> IsPrincipalLeg(a.effects[i])))
  }

  lemma OneMorePrincipal(effects: seq<Effect>, e: Effect)
    ensures Principals(effects + [e]) == Principals(effects) + if IsPrincipalLeg(e) then 1 else 0
  {
    assert (effects + [e])[..|effects + [e]| - 1] == effects;
  }

  lemma HasTwoPrincipals(a: Activity)
    requires InOrder(a)
    ensures Principals(a.effects) == 2 && Receives(a.effects)
  {
    hide Principals;
    var e := a.effects;
    assert e[..2] == ([] + [e[0]]) + [e[1]];
    assert Principals([]) == 0 by { NoPrincipals(); }
    OneMorePrincipal([], e[0]);
    OneMorePrincipal([] + [e[0]], e[1]);
    if |e| == 3 {
      assert e == e[..2] + [e[2]];
      OneMorePrincipal(e[..2], e[2]);
    } else {
      assert e == e[..2];
    }
    assert IsPrincipalLeg(e[1]);
  }

  lemma NoPrincipals()
    ensures Principals([]) == 0
  {
  }

  function Value(u: Universe, a: Activity, r: real -> real, i: nat): real {
    if i < |a.effects| && a.effects[i].money.Some? then Flow(r, Converted(u, a.effects[i].money.value, a.at)) else 0.0
  }

  predicate AreCashLegs(u: Universe, a: Activity) {
    forall e :: e in a.effects ==> IsCashLeg(u, e)
  }

  /** A cash movement adds what it receives less what it sends and pays. */
  lemma CashInOrder(u: Universe, a: Activity, r: real -> real)
    requires InOrder(a) && AreCashLegs(u, a)
    ensures SumOver(a.effects, Net(u, a, r)) == Value(u, a, r, 1) - Value(u, a, r, 0) - Value(u, a, r, 2)
    ensures SumOver(a.effects, NetPrincipal(u, a, r)) == Value(u, a, r, 1) - Value(u, a, r, 0)
    ensures SumOver(a.effects, NetFee(u, a, r)) == -Value(u, a, r, 2)
  {
    hide SumOver, Converted, IsLiability;
    SumOfTwoOrThree(a.effects, Net(u, a, r));
    SumOfTwoOrThree(a.effects, NetPrincipal(u, a, r));
    SumOfTwoOrThree(a.effects, NetFee(u, a, r));
    assert IsCashLeg(u, a.effects[0]) && IsCashLeg(u, a.effects[1]);
    assert |a.effects| == 3 ==> IsCashLeg(u, a.effects[2]);
  }

  /** The groups agree with the universe on a movement inside it exactly when, for a transfer, the
      worth received is the worth sent and the fee; for a conversion at known rates, there is no
      fee to speak of; for units, they are worth as much where they arrive as where they left. A
      trade always agrees. */
  lemma AgreesExactlyWhen(u: Universe, a: Activity, r: real -> real)
    requires IsResolved(u) && IsOdd(r) && IsRecorded(u, a) && IsInternal(u, a)
    requires !a.kind.Buy? && !a.kind.Sell? ==> InOrder(a)
    ensures var agree := SumOver(Classify(u, a), Keeps(u, r)) == SumOver(Classify(u, a), Counts(u, r));
            var received, sent, fee := Value(u, a, r, 1), Value(u, a, r, 0), Value(u, a, r, 2);
            match a.kind
            case CashTransfer => agree <==> received == sent + fee
            case FXConversion => agree <==> if IsTold(u, a) then fee == 0.0 else received == sent + fee
            case PositionTransfer => |a.effects| == 2
              ==> (agree <==> Flow(r, u.portion(a.effects[1])) == Flow(r, u.portion(a.effects[0])))
            case _ => agree
  {
    hide SumOver, Classify, IsResolved, IsOdd, IsInternal, IsTold, Principals, Value, IsCashLeg, Net, NetFee;
    GroupsCountTheGap(u, a, r);
    if a.kind.CashTransfer? || a.kind.FXConversion? {
      CashInOrder(u, a, r);
    }
    if a.kind.PositionTransfer? && |a.effects| == 2 {
      SumOfTwoOrThree(a.effects, NetUnits(u, r));
    }
  }

  // ----- The boundary of the universe

  /** The part of a transfer that the universe sees. */
  function Seen(u: Universe, f: Effect -> real): Effect -> real {
    (e: Effect) => if u.componentOf(e).Some? && u.inside(u.componentOf(e).value) then f(e) else 0.0
  }

  ghost predicate AllSeen(u: Universe, effects: seq<Effect>) {
    forall i :: 0 <= i < |effects| ==> u.componentOf(effects[i]).Some? && u.inside(u.componentOf(effects[i]).value)
  }

  lemma {:induction false} EndpointsSeen(u: Universe, effects: seq<Effect>)
    requires forall e :: e in effects ==> IsCashLeg(u, e)
    ensures |Endpoints(u, effects)| == |effects|
    ensures CountIn(Endpoints(u, effects), u.inside) <= |effects|
    ensures CountIn(Endpoints(u, effects), u.inside) == |effects| <==> AllSeen(u, effects)
  {
    hide IsLiability;
    if effects != [] {
      assert IsCashLeg(u, effects[0]);
      EndpointsSeen(u, effects[1..]);
      var c := u.componentOf(effects[0]).value;
      assert Endpoints(u, effects) == [c] + Endpoints(u, effects[1..]);
      assert ([c] + Endpoints(u, effects[1..]))[1..] == Endpoints(u, effects[1..]);
      assert effects == [effects[0]] + effects[1..];
    }
  }

  lemma AllSeenIsAllIn(u: Universe, effects: seq<Effect>)
    requires effects != [] && forall e :: e in effects ==> IsCashLeg(u, e)
    ensures AllIn(Endpoints(u, effects), u.inside) <==> AllSeen(u, effects)
  {
    hide Endpoints, CountIn;
    EndpointsSeen(u, effects);
    ClassifierLaws.AllInIsCount(Endpoints(u, effects), u.inside);
  }


  /** A leg of a transfer: a fee, or neutral when the whole transfer is seen, or else a flow
      across the boundary. */
  lemma SeenLeg(u: Universe, a: Activity, e: Effect)
    requires a.kind.CashTransfer? && IsRecorded(u, a) && |a.effects| >= 2 && e in a.effects
    ensures var endpoints := Endpoints(u, a.effects);
            var c := u.componentOf(e).value;
            var leg := Physical(u, a, endpoints, e, c);
            && Leg(u, a, endpoints, e) == (if u.inside(c) then [leg] else [])
            && leg.cash && leg.neutral == (IsPrincipalLeg(e) && AllSeen(u, a.effects))
            && leg.bucket
            == (if !IsPrincipalLeg(e) then Some(Fee) else if AllSeen(u, a.effects) then None else Some(ExternalFlow))
            && leg.amount == MapSign(u, e, c.account, Converted(u, e.money.value, a.at))
  {
    hide Endpoints, CountIn, AllIn, Converted, MapSign, IsLiability, AllSeen, DietzCapital, PotentialCapital;
    EndpointsSeen(u, a.effects);
    AllSeenIsAllIn(u, a.effects);
    NotOwed(u, e);
  }

  lemma NotOwed(u: Universe, e: Effect)
    requires IsCashLeg(u, e)
    ensures u.componentOf(e).Some? && !IsLiability(u, u.componentOf(e).value.account)
            && u.componentOf(e).value.account in u.liabilities
  {
  }

  /** Any measure of a leg of the transfer is that of its effect, where the universe sees it. */
  lemma {:induction false} SeenLegs(u: Universe, a: Activity, effects: seq<Effect>, f: Classified -> real,
                                    g: Effect -> real)
    requires a.kind.CashTransfer? && IsRecorded(u, a) && forall e :: e in effects ==> e in a.effects
    requires forall e :: e in a.effects ==> SumOver(Leg(u, a, Endpoints(u, a.effects), e), f) == Seen(u, g)(e)
    ensures SumOver(Legs(u, a, Endpoints(u, a.effects), effects), f) == SumOver(effects, Seen(u, g))
  {
    hide Leg, Endpoints, SumOver, Seen, IsRecorded;
    if effects == [] {
      SumZero([], f);
      SumZero([], Seen(u, g));
    } else {
      var n := |effects| - 1;
      SeenLegs(u, a, effects[..n], f, g);
      SumAppend(Legs(u, a, Endpoints(u, a.effects), effects[..n]), Leg(u, a, Endpoints(u, a.effects), effects[n]), f);
      SumLast(effects, n, Seen(u, g));
      assert effects[..n + 1] == effects;
    }
  }

  /** What the measures of the waterfall make of one effect of a transfer. */
  function Part(u: Universe, a: Activity, whole: bool, k: Option<Bucket>): Effect -> real {
    (e: Effect) =>
      if k.None? then Net(u, a, Exactly())(e)
      else if k == Some(Fee) then NetFee(u, a, Exactly())(e)
      else if k == Some(ExternalFlow) && !whole then NetPrincipal(u, a, Exactly())(e)
      else 0.0
  }

  lemma SeenLegMeasures(u: Universe, a: Activity, e: Effect, k: Bucket)
    requires a.kind.CashTransfer? && IsRecorded(u, a) && |a.effects| >= 2 && e in a.effects
    ensures var leg := Leg(u, a, Endpoints(u, a.effects), e);
            var whole := AllSeen(u, a.effects);
            && SumOver(leg, Amount()) == Seen(u, Part(u, a, whole, None))(e)
            && SumOver(leg, InBucket(k)) == Seen(u, Part(u, a, whole, Some(k)))(e)
            && (whole ==> SumOver(leg, NeutralAmount()) == Seen(u, NetPrincipal(u, a, Exactly()))(e))
  {
    hide Leg, Endpoints, Physical, Converted, AllSeen, SumOver, IsRecorded, IsLiability;
    SeenLeg(u, a, e);
    RecordedIsCash(u, a, e);
    NotOwed(u, e);
    var leg := Physical(u, a, Endpoints(u, a.effects), e, u.componentOf(e).value);
    SignOfCash(u, a, e);
    if u.inside(u.componentOf(e).value) {
      SumOfOne(leg, Amount());
      SumOfOne(leg, InBucket(k));
      SumOfOne(leg, NeutralAmount());
    } else {
      SumZero([], Amount());
      SumZero([], InBucket(k));
      SumZero([], NeutralAmount());
    }
  }

  lemma RecordedIsCash(u: Universe, a: Activity, e: Effect)
    requires a.kind.CashTransfer? && IsRecorded(u, a) && e in a.effects
    ensures IsCashLeg(u, e)
  {
  }

  lemma SignOfCash(u: Universe, a: Activity, e: Effect)
    requires IsCashLeg(u, e)
    ensures var amount := MapSign(u, e, u.componentOf(e).value.account, Converted(u, e.money.value, a.at));
            (if amount.Some? then amount.value else 0.0) == Net(u, a, Exactly())(e)
  {
    hide Converted;
  }

  /** A transfer adds to the total what the universe sees of it: its fee as a fee, and its
      principal as an external flow, unless both ends are seen. Then the principal is neutral, but
      what is received need not be what was sent, since only a conversion tells its spread apart. */
  lemma TransfersCountAtTheBoundary(u: Universe, a: Activity, k: Bucket)
    requires a.kind.CashTransfer? && IsRecorded(u, a) && |a.effects| >= 2
    ensures var r := Exactly();
            var whole := AllSeen(u, a.effects);
            && SumOver(Classify(u, a), Amount()) == SumOver(a.effects, Seen(u, Net(u, a, r)))
            && SumOver(Classify(u, a), InBucket(k))
               == (if k == Fee then SumOver(a.effects, Seen(u, NetFee(u, a, r)))
                   else if k == ExternalFlow && !whole then SumOver(a.effects, Seen(u, NetPrincipal(u, a, r)))
                   else 0.0)
            && (whole ==> SumOver(Classify(u, a), NeutralAmount()) == SumOver(a.effects, NetPrincipal(u, a, r)))
  {
    hide SumOver, Legs, Endpoints, Leg, AllSeen, IsRecorded, Net, NetFee, NetPrincipal;
    TransferHasNoSpread(u, a);
    var r, whole := Exactly(), AllSeen(u, a.effects);
    forall e | e in a.effects
      ensures SumOver(Leg(u, a, Endpoints(u, a.effects), e), Amount()) == Seen(u, Part(u, a, whole, None))(e)
      ensures SumOver(Leg(u, a, Endpoints(u, a.effects), e), InBucket(k)) == Seen(u, Part(u, a, whole, Some(k)))(e)
      ensures whole
              ==> SumOver(Leg(u, a, Endpoints(u, a.effects), e), NeutralAmount()) == Seen(u, NetPrincipal(u, a, r))(e)
    {
      SeenLegMeasures(u, a, e, k);
    }
    SeenLegs(u, a, a.effects, Amount(), Part(u, a, whole, None));
    SeenLegs(u, a, a.effects, InBucket(k), Part(u, a, whole, Some(k)));
    SumEqual(a.effects, Seen(u, Part(u, a, whole, None)), Seen(u, Net(u, a, r)));
    PartsOfBucket(u, a, whole, k);
    if whole {
      SeenLegs(u, a, a.effects, NeutralAmount(), NetPrincipal(u, a, r));
      SeenIsAll(u, a.effects, NetPrincipal(u, a, r));
    }
  }

  lemma PartsOfBucket(u: Universe, a: Activity, whole: bool, k: Bucket)
    ensures SumOver(a.effects, Seen(u, Part(u, a, whole, Some(k))))
         == if k == Fee then SumOver(a.effects, Seen(u, NetFee(u, a, Exactly())))
            else if k == ExternalFlow && !whole then SumOver(a.effects, Seen(u, NetPrincipal(u, a, Exactly())))
            else 0.0
  {
    hide SumOver, Net, NetFee, NetPrincipal;
    var part := Seen(u, Part(u, a, whole, Some(k)));
    if k == Fee {
      SumEqual(a.effects, part, Seen(u, NetFee(u, a, Exactly())));
    } else if k == ExternalFlow && !whole {
      SumEqual(a.effects, part, Seen(u, NetPrincipal(u, a, Exactly())));
    } else {
      SumZero(a.effects, part);
    }
  }

  lemma SeenIsAll(u: Universe, effects: seq<Effect>, f: Effect -> real)
    requires AllSeen(u, effects)
    ensures SumOver(effects, Seen(u, f)) == SumOver(effects, f)
  {
    SumEqual(effects, Seen(u, f), f);
  }

  /** So a transfer between two accounts of the universe leaves its total alone exactly when the
      worth received is the worth sent and the fee, and its neutral legs cancel exactly when what
      is received is what was sent. */
  lemma SeenTransferAddsItsGap(u: Universe, a: Activity)
    requires a.kind.CashTransfer? && IsRecorded(u, a) && InOrder(a) && AllSeen(u, a.effects)
    ensures var received, sent, fee := Value(u, a, Exactly(), 1), Value(u, a, Exactly(), 0), Value(u, a, Exactly(), 2);
            && SumOver(Classify(u, a), Amount()) == received - sent - fee
            && SumOver(Classify(u, a), NeutralAmount()) == received - sent
  {
    hide SumOver, Classify, Net, NetPrincipal, NetFee, Value, AllSeen, IsLiability;
    TransfersCountAtTheBoundary(u, a, Fee);
    SeenIsAll(u, a.effects, Net(u, a, Exactly()));
    assert AreCashLegs(u, a);
    CashInOrder(u, a, Exactly());
  }

  // ----- Movements that leave a gap

  function Place(e: Effect): Option<Component> {
    if e.holding.Some? then Some(Component(e.account, e.holding, Some("FUND"), "USD", "fund", false))
    else if e.money.Some? then Some(Component(e.account, None, None, e.money.value.currency, CASH, true))
    else None
  }

  /** Two accounts, everything in them selected and invested; a euro is worth two, and units are
      worth ten where they leave and twelve where they arrive. */
  function Household(): Universe {
    var invested: Component -> bool := (c: Component) => (c.instrument.Some? || c.cash)
        && (c.account == "A" || c.account == "B");
    Universe(map["A" := false, "B" := false], Place, (id: string) => None, invested, invested, true,
             (currency: string, at: int) => if currency == "EUR" then Some(2.0) else Some(1.0),
             (e: Effect) => if e.added then Some(12.0) else Some(10.0), (e: Effect) => false)
  }

  function CashEffect(role: Role, added: bool, c: Class, account: string, m: Money): Effect {
    Effect(role, added, AccountCash, c, account, None, Some(m), None, None)
  }

  function UnitsEffect(role: Role, added: bool, account: string, holding: string): Effect {
    Effect(role, added, HoldingQuantity, InternalTransfer, account, Some(holding), None, Some(1.0), None)
  }

  lemma {:induction false} AllInvested(u: Universe, effects: seq<Effect>)
    requires effects != []
    requires forall i ::
               0 <= i < |effects|
               ==> !effects[i].target.HoldingCost? && u.componentOf(effects[i]).Some?
                   && u.invested(u.componentOf(effects[i]).value)
    ensures AllIn(Endpoints(u, effects), u.invested)
  {
    var c := u.componentOf(effects[0]).value;
    if |effects| > 1 {
      assert forall i :: 0 <= i < |effects[1..]| ==> effects[1..][i] == effects[i + 1];
      AllInvested(u, effects[1..]);
      assert Endpoints(u, effects) == [c] + Endpoints(u, effects[1..]);
    } else {
      assert effects[1..] == [] && Endpoints(u, effects) == [c] + Endpoints(u, []);
    }
  }

  /** A movement inside the household on which the groups and the universe differ by a gap. */
  ghost predicate Leaves(a: Activity, gap: real) {
    var u := Household();
    && IsInternal(u, a)
    && SumOver(Classify(u, a), Counts(u, Exactly())) == 0.0
    && SumOver(Classify(u, a), Keeps(u, Exactly())) == gap
  }

  lemma LeavesItsGap(a: Activity)
    requires a.kind.CashTransfer? || a.kind.FXConversion? || a.kind.PositionTransfer?
    requires a.effects != [] && IsRecorded(Household(), a)
    requires forall i ::
               0 <= i < |a.effects|
               ==> !a.effects[i].target.HoldingCost? && Place(a.effects[i]).Some?
                   && Household().invested(Place(a.effects[i]).value)
    ensures Leaves(a, Gap(Household(), a, Exactly()))
  {
    hide SumOver, Classify, Endpoints, AllIn, Gap, Principals, IsCashLeg, IsUnitLeg;
    var u := Household();
    AllInvested(u, a.effects);
    assert IsResolved(u) && IsOdd(Exactly());
    InternalIsNoFlow(u, a, Exactly());
    GroupsCountTheGap(u, a, Exactly());
  }

  const SENT := CashEffect(TransferFrom, false, InternalTransfer, "A", Money(10.0, "USD"))
  const RECEIVED := CashEffect(TransferTo, true, InternalTransfer, "B", Money(10.0, "USD"))
  const CHARGED := CashEffect(FeeRole, false, FeeClass, "A", Money(1.0, "USD"))

  /** A transfer in one currency with a fee of one. */
  lemma FeeOfATransferIsMissed()
    ensures Leaves(Activity(CashTransfer, OtherReason, 0, [SENT, RECEIVED, CHARGED], None, None), -1.0)
  {
    hide SumOver, Leaves;
    var a := Activity(CashTransfer, OtherReason, 0, [SENT, RECEIVED, CHARGED], None, None);
    LeavesItsGap(a);
    CashInOrder(Household(), a, Exactly());
  }

  /** Ten euros worth twenty are sent and nineteen dollars arrive; the neutral legs do not cancel
      either. */
  lemma SpreadOfATransferIsMissed()
    ensures var a :=
            Activity(CashTransfer, OtherReason, 0,
                     [SENT.(money := Some(Money(10.0, "EUR"))), RECEIVED.(money := Some(Money(19.0, "USD")))], None,
                     None);
            Leaves(a, -1.0) && SumOver(Classify(Household(), a), NeutralAmount()) == -1.0
  {
    hide SumOver, Leaves, Classify;
    var a := Activity(CashTransfer, OtherReason, 0,
                      [SENT.(money := Some(Money(10.0, "EUR"))), RECEIVED.(money := Some(Money(19.0, "USD")))], None,
                      None);
    LeavesItsGap(a);
    CashInOrder(Household(), a, Exactly());
    SeenTransferAddsItsGap(Household(), a);
  }

  /** A conversion with a fee of one. */
  lemma FeeOfAConversionIsMissed()
    ensures Leaves(Activity(FXConversion, OtherReason, 0,
                            [SENT, RECEIVED.(account := "A", money := Some(Money(4.0, "EUR"))), CHARGED], None, None),
                            -1.0)
  {
    hide SumOver, Leaves;
    var a := Activity(FXConversion, OtherReason, 0,
                      [SENT, RECEIVED.(account := "A", money := Some(Money(4.0, "EUR"))), CHARGED], None, None);
    var u := Household();
    HasTwoPrincipals(a);
    LeavesItsGap(a);
    CashInOrder(u, a, Exactly());
    assert IsTold(u, a);
  }

  /** Units are moved between accounts on a day on which they gained in worth. */
  lemma GainOfMovedUnitsIsCounted()
    ensures Leaves(Activity(PositionTransfer, OtherReason, 0,
                            [UnitsEffect(TransferFrom, false, "A", "H"), UnitsEffect(TransferTo, true, "B", "J")],
                            None, None), 2.0)
  {
    hide SumOver, Leaves;
    var a := Activity(PositionTransfer, OtherReason, 0,
                      [UnitsEffect(TransferFrom, false, "A", "H"), UnitsEffect(TransferTo, true, "B", "J")], None,
                      None);
    var u, x, y := Household(), a.effects[0], a.effects[1];
    var net := NetUnits(u, Exactly());
    assert u.portion(x) == Some(10.0) && u.portion(y) == Some(12.0);
    assert net(x) == -10.0 && net(y) == 12.0;
    SumOfTwoOrThree(a.effects, net);
    assert SumOver(a.effects, net) == 2.0;
    assert Place(x).Some? && u.invested(Place(x).value) && Place(y).Some? && u.invested(Place(y).value);
    assert IsUnitLeg(u, x) && IsUnitLeg(u, y);
    LeavesItsGap(a);
  }
}
