/** A day on which the groups count capital that the universe does not, because the other leg of a
    trade belongs to a component without a value. */
module GroupExamples {
  import opened AnalysisModel
  import opened CapitalLaws
  import opened Classifier
  import ClassifierLaws
  import opened DailyReturns
  import opened DayCapital
  import opened GroupCapital
  import opened ReturnFold
  import opened Sums

  const FUND := Component("A", Some("H"), Some("FUND"), "USD", "fund", false)
  const PURSE := Component("A", None, None, "USD", CASH, true)

  predicate IsOurs(c: Component) {
    c.account == "A" && (IsFund(c) || IsPurse(c))
  }

  predicate IsFund(c: Component) {
    c.holding == Some("H") && c.instrument == Some("FUND")
  }

  predicate IsPurse(c: Component) {
    c.holding.None? && c.instrument.None? && c.cash && c.currency == "USD"
  }

  /** One account with a fund and dollars, all of it invested. */
  function Broker(): Universe {
    Universe(map["A" := false], (e: Effect) => Some(if e.holding.Some? then FUND else PURSE), (id: string) => None,
             (c: Component) => IsOurs(c), (c: Component) => IsOurs(c), true, (currency: string, at: int) => Some(1.0),
             (e: Effect) => None, (e: Effect) => false)
  }

  const TAKEN := Effect(QuantityRole, true, HoldingQuantity, TradePrincipal, "A", Some("H"), None, Some(1.0), None)
  const PAID :=
      Effect(PrincipalRole, false, AccountCash, TradePrincipal, "A", None, Some(Money(10.0, "USD")), None, None)

  /** A unit is bought for ten at the start of the day. */
  function Purchase(): Activity {
    Activity(Buy, PrincipalReason, 0, [TAKEN, PAID], Some(Trade(false, "H", Money(10.0, "USD"))), None)
  }

  /** The fund has a value that day; the purse has none. */
  function FundIsValued(): Component -> bool {
    (c: Component) => c.holding.Some?
  }

  const DAY := (0, 1000)

  function Bounds(): DayBounds {
    (date: Date) => DAY
  }

  function Day(c: Component, attributed: seq<Attributed>): ComponentDay {
    ComponentDay(1, c, map[], map[], SignedMoney(0, "USD"), SignedMoney(0, "USD"), None, None, [], attributed, OK)
  }

  /** The fund keeps its ten as capital entering it; the purse keeps nothing. */
  const DAYS: seq<ComponentDay> := [Day(FUND, [Attributed(None, Some(CapitalFlow(100000, 0)))]), Day(PURSE, [])]

  lemma BrokerIsResolved()
    ensures IsResolved(Broker()) && ListsInvested(Broker(), [FUND, PURSE]) && GoesByComponent(Broker(), FundIsValued())
  {
    var u := Broker();
    forall c | u.invested(c) ensures IsListed([FUND, PURSE], c) {
      assert IsFund(c) ==> SameComponent(c, [FUND, PURSE][0]);
      assert IsPurse(c) ==> SameComponent(c, [FUND, PURSE][1]);
    }
  }

  lemma PurchaseIsRecorded()
    ensures IsRecorded(Broker(), Purchase()) && IsInternal(Broker(), Purchase())
    ensures Endpoints(Broker(), Purchase().effects) == [FUND, PURSE]
  {
    hide SumOver;
    var u, a := Broker(), Purchase();
    SumOfTwoOrThree(a.effects, Side());
    assert a.effects[1..] == [PAID] && [PAID][1..] == [];
    assert Endpoints(u, [PAID]) == [PURSE] + Endpoints(u, []);
    assert Endpoints(u, a.effects) == [FUND] + Endpoints(u, [PAID]);
  }

  /** What the purchase leaves in the fund and in the purse. */
  function Moving(c: Component, cash: bool, amount: real): Classified {
    Classified(c, None, Some(amount), true, cash, !cash, None, None, None, Some(amount))
  }

  lemma PurchaseLeg(e: Effect)
    requires e == TAKEN || e == PAID
    ensures Leg(Broker(), Purchase(), Endpoints(Broker(), Purchase().effects), e)
         == [if e == TAKEN then Moving(FUND, false, 10.0) else Moving(PURSE, true, -10.0)]
  {
    hide Endpoints, CountIn;
    var u, a := Broker(), Purchase();
    var endpoints := Endpoints(u, a.effects);
    PurchaseIsRecorded();
    ClassifierLaws.AllInIsCount(endpoints, u.inside);
    assert AllIn(endpoints, u.inside) && AllIn(endpoints, u.invested)
           && CountIn(endpoints, u.inside) == |endpoints| == 2;
    assert Converted(u, Money(10.0, "USD"), 0) == Some(10.0);
  }

  lemma PurchaseIsClassified()
    ensures Classify(Broker(), Purchase()) == [Moving(FUND, false, 10.0), Moving(PURSE, true, -10.0)]
  {
    hide Leg, Endpoints;
    var u, a := Broker(), Purchase();
    var endpoints := Endpoints(u, a.effects);
    PurchaseLeg(TAKEN);
    PurchaseLeg(PAID);
    assert a.effects == [TAKEN] + [PAID];
    ClassifierLaws.LegsAppend(u, a, endpoints, [TAKEN], [PAID]);
    ClassifierLaws.LegsOfOne(u, a, endpoints, TAKEN);
    ClassifierLaws.LegsOfOne(u, a, endpoints, PAID);
  }

  const IN_FUND := Timed(Moving(FUND, false, 10.0), 0)
  const FROM_PURSE := Timed(Moving(PURSE, true, -10.0), 0)

  lemma PurchaseIsTimed()
    ensures TimedLegs(Broker(), [Purchase()]) == [IN_FUND, FROM_PURSE]
    ensures LegsOf([IN_FUND, FROM_PURSE], FUND) == [IN_FUND] && LegsOf([IN_FUND, FROM_PURSE], PURSE) == [FROM_PURSE]
  {
    hide Classify;
    PurchaseIsClassified();
    var legs := Classify(Broker(), Purchase());
    assert legs[..1] == [legs[0]] && legs[..1][..0] == [];
    assert Tagged(legs[..1], 0) == Tagged([], 0) + [IN_FUND] == [IN_FUND];
    assert Tagged(legs, 0) == [IN_FUND] + [FROM_PURSE];
    assert [Purchase()][..0] == [];
    assert TimedLegs(Broker(), [Purchase()]) == TimedLegs(Broker(), []) + Tagged(legs, 0);
    var timed := [IN_FUND, FROM_PURSE];
    assert timed[..1] == [IN_FUND] && [IN_FUND][..0] == [];
    assert LegsOf([IN_FUND], FUND) == LegsOf([], FUND) + [IN_FUND];
    assert LegsOf([IN_FUND], PURSE) == LegsOf([], PURSE) + [];
  }

  lemma TenInUnits()
    ensures UnitsOf(10.0) == 100000 && UnitsOf(-10.0) == -100000
  {
  }

  lemma FundKeepsItsLeg()
    ensures AttributedOf([IN_FUND]) == [Attributed(None, Some(CapitalFlow(100000, 0)))] && DietzFlows([IN_FUND]) == []
  {
    hide UnitsOf;
    TenInUnits();
    assert [IN_FUND][..0] == [];
    assert AttributedOf([IN_FUND]) == AttributedOf([]) + [AttributedFrom(IN_FUND)];
    assert DietzFlows([IN_FUND]) == DietzFlows([]) + [];
  }

  lemma DaysAreBuilt()
    ensures AreBuiltDays(DAYS, 1, [FUND, PURSE], TimedLegs(Broker(), [Purchase()]), FundIsValued(), DAY)
  {
    hide TimedLegs, LegsOf, AttributedOf, DietzFlows, DietzFlow, UnitsOf;
    PurchaseIsTimed();
    FundKeepsItsLeg();
    var timed := [IN_FUND, FROM_PURSE];
    assert IsBuiltDay(DAYS[0], 1, FUND, LegsOf(timed, FUND), true, DAY);
    assert IsBuiltDay(DAYS[1], 1, PURSE, LegsOf(timed, PURSE), false, DAY);
  }

  lemma LegOfThePurseIsLost()
    ensures SumOver([IN_FUND, FROM_PURSE], Lost(Broker(), DAY, FundIsValued())) == -100000.0
  {
    hide SumOver, UnitsOf;
    var lost := Lost(Broker(), DAY, FundIsValued());
    ExtraOf(Broker(), FROM_PURSE.leg);
    TenInUnits();
    assert DietzFlowWeight(0, DAY) == 1.0;
    assert lost(IN_FUND) == 0.0 && lost(FROM_PURSE) == -100000.0;
    SumOfTwoOrThree([IN_FUND, FROM_PURSE], lost);
  }

  /** The ten enter the group of the fund and leave no other, so the groups count ten more than
      the universe. */
  lemma TradeWithAnUnvaluedPurse()
    ensures AreBuiltDays(OnDate(DAYS, 1), 1, [FUND, PURSE], TimedLegs(Broker(), [Purchase()]), FundIsValued(), DAY)
    ensures var keys := ["FUND", "cash:USD"];
            SumOver(keys, k => CapitalOn(1, Zone(Bounds()))(Items(DAYS, ByInstrument, k)))
            == DailyCapital(OnDate(DAYS, 1), DAY) + 100000.0
  {
    hide SumOver, Items, CapitalOn, DailyCapital, AreBuiltDays, TimedLegs, IsRecorded, IsResolved, GoesByComponent,
         ListsInvested, IsInternal;
    var u, keys := Broker(), ["FUND", "cash:USD"];
    assert OnDate(DAYS, 1) == DAYS by {
      assert DAYS[..1] == [DAYS[0]] && DAYS[..1][..0] == [];
      assert OnDate(DAYS[..1], 1) == OnDate([], 1) + [DAYS[0]];
    }
    BrokerIsResolved();
    PurchaseIsRecorded();
    DaysAreBuilt();
    assert keys[0] != keys[1];
    assert InstrumentGroupKey(FUND) == "FUND" && InstrumentGroupKey(PURSE) == "cash:USD";
    GroupsCountTheUniverse(u, [Purchase()], [FUND, PURSE], DAYS, ByInstrument, keys, 1, FundIsValued(), Bounds());
    SumZero([Purchase()], GapOn(u, DAY));
    PurchaseIsTimed();
    LegOfThePurseIsLost();
  }
}
