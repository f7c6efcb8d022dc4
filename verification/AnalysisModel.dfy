/** The records the analysis kernel computes and its projections fold. */
module AnalysisModel {

  datatype Option<+T> = None | Some(value: T)

  /** A local date label in calendar order; 0 is the empty label, which sorts first. */
  type Date = nat

  /** An amount after the Money boundary, in units of 0.0001. The empty currency marks the
      zero value of a field that was never set. */
  datatype SignedMoney = SignedMoney(units: int, currency: string)

  const UNSET := SignedMoney(0, "")

  datatype Component = Component(account: string, holding: Option<string>, instrument: Option<string>,
                                 currency: string, assetClass: string, cash: bool)

  datatype Bucket =
    | ExternalFlow | Income | Spending | DividendInterest | PriceChange | FxImpact
    | FxConversionSpread | Fee | LiabilityImpact | Adjustment | Residual

  const ORDERED_BUCKETS: seq<Bucket> :=
    [ExternalFlow, Income, Spending, DividendInterest, PriceChange, FxImpact,
     FxConversionSpread, Fee, LiabilityImpact, Adjustment, Residual]

  datatype Completeness = OK | Partial | Unavailable

  /** A capital flow and its instant. */
  datatype CapitalFlow = CapitalFlow(units: int, at: int)

  /** The two capital flows an attributed effect may keep. */
  datatype Attributed = Attributed(dietz: Option<CapitalFlow>, potential: Option<CapitalFlow>)

  datatype ComponentDay = ComponentDay(
    date: Date,
    component: Component,
    assetBuckets: map<Bucket, SignedMoney>,
    exactBuckets: map<Bucket, real>,
    beginning: SignedMoney,
    ending: SignedMoney,
    returnAmount: Option<int>,
    investedCapital: Option<int>,
    flows: seq<CapitalFlow>,
    attributed: seq<Attributed>,
    status: Completeness)

  const CASH := "cash"

  /** Cash has no instrument: its native currency names the cash sleeve. */
  function InstrumentGroupKey(component: Component): string {
    if component.instrument.Some? then component.instrument.value
    else if component.currency != "" then CASH + ":" + component.currency
    else CASH
  }
}
