/** One component-day: direct effects, neutral legs, price, FX and a residual, which together
    are the change in value. */
module ComponentDays {
  import opened AnalysisModel
  import opened Bridges
  import opened CashBridge
  import opened Sorting
  import opened Sums

  datatype Kind = HoldingComponent | BalanceComponent | UnbridgedComponent

  datatype DayAttribution = DayAttribution(buckets: map<Bucket, real>, residual: Option<real>, partial: bool)

  function Pow10(n: nat): real {
    if n == 0 then 1.0 else 10.0 * Pow10(n - 1)
  }

  lemma {:induction false} Pow10IsPositive(n: nat)
    ensures Pow10(n) > 0.0
  {
    if n > 0 { Pow10IsPositive(n - 1); }
  }

  /** Two units of the currency's last place, or a billionth of the beginning value. */
  function Tolerance(places: nat, beginning: real): real {
    Pow10IsPositive(places);
    Max(2.0 / Pow10(places), Abs(beginning) * 0.000000001)
  }

  function DirectIn(k: Bucket): Effect -> real {
    (e: Effect) => if e.known && e.bucket == Some(k) then e.amount else 0.0
  }

  function Direct(): Effect -> real {
    (e: Effect) => if e.known && e.bucket.Some? then e.amount else 0.0
  }

  function Neutral(): Effect -> real {
    (e: Effect) => if e.known && e.bucket.None? && e.neutral then e.amount else 0.0
  }

  function DayBridge(ctx: Context, kind: Kind, previous: Item, current: Item, effects: seq<Effect>): Bridge {
    match kind
    case HoldingComponent => HoldingBridge(ctx, previous, current, effects)
    case BalanceComponent => CashBridge.CashBridge(ctx, previous, current, effects)
    case UnbridgedComponent => ZERO_BRIDGE
  }

  /** What a bucket of the day holds. */
  function Attribution(effects: seq<Effect>, b: Bridge, residual: Option<real>): Bucket -> real {
    (k: Bucket) =>
      SumOver(effects, DirectIn(k))
      + (if k == PriceChange then b.price else 0.0)
      + (if k == FxImpact then b.fx else 0.0)
      + (if k == Residual && residual.Some? then residual.value else 0.0)
  }

  function Unexplained(effects: seq<Effect>, b: Bridge, begin: real, ending: real): real {
    ending - begin - SumOver(effects, Direct()) - SumOver(effects, Neutral()) - b.price - b.fx
  }

  method AddExact(buckets: map<Bucket, real>, k: Bucket, amount: real) returns (added: map<Bucket, real>)
    ensures forall j :: Exact(added)(j) == Exact(buckets)(j) + if j == k then amount else 0.0
  {
    added := buckets;
    if amount != 0.0 {
      added := AddTo(buckets, k, amount);
    }
  }

  /** What has been added up after some effects. */
  ghost predicate IsTally(effects: seq<Effect>, buckets: map<Bucket, real>, direct: real, neutral: real) {
    && (forall k :: Exact(buckets)(k) == SumOver(effects, DirectIn(k)))
    && direct == SumOver(effects, Direct()) && neutral == SumOver(effects, Neutral())
  }

  lemma TallyNone()
    ensures IsTally([], map[], 0.0, 0.0)
  {
    forall k ensures SumOver([], DirectIn(k)) == 0.0 {}
  }

  lemma TallyOneMore(effects: seq<Effect>, i: nat, buckets: map<Bucket, real>, added: map<Bucket, real>, direct: real,
                     neutral: real)
    requires i < |effects| && IsTally(effects[..i], buckets, direct, neutral)
    requires forall k :: Exact(added)(k) == Exact(buckets)(k) + DirectIn(k)(effects[i])
    ensures IsTally(effects[..i + 1], added, direct + Direct()(effects[i]), neutral + Neutral()(effects[i]))
  {
    hide SumOver, DirectIn, Direct, Neutral;
    forall k ensures SumOver(effects[..i + 1], DirectIn(k))
    == SumOver(effects[..i], DirectIn(k)) + DirectIn(k)(effects[i]) {
      SumLast(effects, i, DirectIn(k));
    }
    SumLast(effects, i, Direct());
    SumLast(effects, i, Neutral());
  }

  /** Adds up the known effects, each in its bucket or as a neutral leg. */
  method AddEffects(effects: seq<Effect>) returns (buckets: map<Bucket, real>, direct: real, neutral: real)
    ensures IsTally(effects, buckets, direct, neutral)
  {
    hide IsTally;
    buckets, direct, neutral := map[], 0.0, 0.0;
    TallyNone();
    for i := 0 to |effects|
      invariant IsTally(effects[..i], buckets, direct, neutral)
    {
      var e := effects[i];
      var added, d, n := buckets, direct, neutral;
      if e.known {
        if e.bucket.Some? {
          added := AddExact(buckets, e.bucket.value, e.amount);
          d := direct + e.amount;
        } else if e.neutral {
          n := neutral + e.amount;
        }
      }
      TallyOneMore(effects, i, buckets, added, direct, neutral);
      buckets, direct, neutral := added, d, n;
    }
    assert effects[..|effects|] == effects;
  }

  /** The buckets hold the effects, the bridge and any residual; a residual is recorded exactly
      when what the parts leave unexplained exceeds the tolerance. */
  ghost predicate IsAttribution(day: DayAttribution, effects: seq<Effect>, b: Bridge, begin: real, ending: real,
                                places: nat) {
    var unexplained := Unexplained(effects, b, begin, ending);
    && day.residual == (if Abs(unexplained) > Tolerance(places, begin) then Some(unexplained) else None)
    && (day.partial <==> day.residual.Some? || b.partial)
    && forall k :: Exact(day.buckets)(k) == Attribution(effects, b, day.residual)(k)
  }

  lemma ClosedBuckets(effects: seq<Effect>,
                      buckets: map<Bucket, real>, priced: map<Bucket, real>, marked: map<Bucket, real>,
                      closed: map<Bucket, real>, direct: real, neutral: real, b: Bridge, residual: Option<real>)
    requires IsTally(effects, buckets, direct, neutral)
    requires forall j :: Exact(priced)(j) == Exact(buckets)(j) + if j == PriceChange then b.price else 0.0
    requires forall j :: Exact(marked)(j) == Exact(priced)(j) + if j == FxImpact then b.fx else 0.0
    requires forall j ::
               Exact(closed)(j) == Exact(marked)(j) + if j == Residual && residual.Some? then residual.value else 0.0
    ensures forall k :: Exact(closed)(k) == Attribution(effects, b, residual)(k)
  {
    hide SumOver, Exact, Direct, Neutral, DirectIn;
  }

  /** Adds the bridge to the effects and records what is left as a residual. */
  method CloseDay(effects: seq<Effect>, buckets: map<Bucket, real>, direct: real, neutral: real, b: Bridge,
                  begin: real, ending: real, places: nat)
    returns (day: DayAttribution)
    requires IsTally(effects, buckets, direct, neutral)
    ensures IsAttribution(day, effects, b, begin, ending, places)
  {
    hide SumOver, Tolerance, Exact, Direct, Neutral, Abs, Attribution;
    var priced := AddExact(buckets, PriceChange, b.price);
    var marked := AddExact(priced, FxImpact, b.fx);
    var unexplained := ending - begin - direct - neutral - b.price - b.fx;
    if Abs(unexplained) > Tolerance(places, begin) {
      var closed := AddExact(marked, Residual, unexplained);
      ClosedBuckets(effects, buckets, priced, marked, closed, direct, neutral, b, Some(unexplained));
      day := DayAttribution(closed, Some(unexplained), true);
    } else {
      ClosedBuckets(effects, buckets, priced, marked, marked, direct, neutral, b, None);
      day := DayAttribution(marked, None, b.partial);
    }
  }

  /** Splits the change of a component over a day. */
  method AttributeDay(ctx: Context, kind: Kind, previous: Item, current: Item, effects: seq<Effect>, begin: real,
                      ending: real, places: nat)
    returns (day: DayAttribution)
    requires PositiveQuotes(previous, current)
    ensures IsAttribution(day, effects, DayBridge(ctx, kind, previous, current, effects), begin, ending, places)
  {
    hide IsTally, IsAttribution, HoldingBridge, CashBridge.CashBridge;
    var buckets, direct, neutral := AddEffects(effects);
    var b := ZERO_BRIDGE;
    match kind {
      case HoldingComponent => b := ComputeHoldingBridge(ctx, previous, current, effects);
      case BalanceComponent => b := ComputeCashBridge(ctx, previous, current, effects);
      case UnbridgedComponent =>
    }
    day := CloseDay(effects, buckets, direct, neutral, b, begin, ending, places);
  }

  // ----- Conservation

  lemma {:induction false} DirectByBucket(keys: seq<Bucket>, effects: seq<Effect>)
    requires Distinct(keys) && forall k :: k in keys
    ensures SumOver(keys, k => SumOver(effects, DirectIn(k))) == SumOver(effects, Direct())
  {
    var sums := k => SumOver(effects, DirectIn(k));
    if effects == [] {
      SumZero(keys, sums);
    } else {
      var e := effects[0];
      var own := k => DirectIn(k)(e);
      var rest := k => SumOver(effects[1..], DirectIn(k));
      DirectByBucket(keys, effects[1..]);
      SumPlus(keys, own, rest, sums);
      if e.bucket.Some? {
        SumSingle(keys, own, e.bucket.value);
      } else {
        SumZero(keys, own);
      }
    }
  }

  lemma AttributionTotal(keys: seq<Bucket>, effects: seq<Effect>, b: Bridge, residual: Option<real>)
    requires Distinct(keys) && forall k :: k in keys
    ensures SumOver(keys, Attribution(effects, b, residual))
         == SumOver(effects, Direct()) + b.price + b.fx + if residual.Some? then residual.value else 0.0
  {
    hide SumOver, Direct, DirectIn;
    var sums: Bucket -> real := k => SumOver(effects, DirectIn(k));
    var price: Bucket -> real := k => if k == PriceChange then b.price else 0.0;
    var fx: Bucket -> real := k => if k == FxImpact then b.fx else 0.0;
    var rest: Bucket -> real := k => if k == Residual && residual.Some? then residual.value else 0.0;
    var one: Bucket -> real := k => sums(k) + price(k);
    var two: Bucket -> real := k => one(k) + fx(k);
    DirectByBucket(keys, effects);
    SumEqual(keys, sums, k => SumOver(effects, DirectIn(k)));
    SumPlus(keys, sums, price, one);
    SumPlus(keys, one, fx, two);
    SumPlus(keys, two, rest, Attribution(effects, b, residual));
    SumSingle(keys, price, PriceChange);
    SumSingle(keys, fx, FxImpact);
    SumSingle(keys, rest, Residual);
  }

  /** Buckets and neutral legs are the change in value: exactly when a residual is recorded, and
      otherwise up to an amount within the tolerance. */
  lemma DayConserves(day: DayAttribution, keys: seq<Bucket>, effects: seq<Effect>, b: Bridge, begin: real,
                     ending: real, places: nat)
    requires Distinct(keys) && forall k :: k in keys
    requires IsAttribution(day, effects, b, begin, ending, places)
    ensures var explained := SumOver(keys, Exact(day.buckets)) + SumOver(effects, Neutral());
            if day.residual.Some? then explained == ending - begin
            else Abs(ending - begin - explained) <= Tolerance(places, begin)
  {
    hide SumOver, Tolerance, Attribution;
    SumEqual(keys, Exact(day.buckets), Attribution(effects, b, day.residual));
    AttributionTotal(keys, effects, b, day.residual);
  }

  lemma CountedSplits(effects: seq<Effect>)
    ensures SumOver(effects, Counted()) == SumOver(effects, Direct()) + SumOver(effects, Neutral())
  {
    SumPlus(effects, Direct(), Neutral(), Counted());
  }

  /** A holding day that reconciles, in the sense of the bridge, records no residual and its
      parts are the change in value exactly. */
  lemma ReconciledHoldingDay(ctx: Context, previous: Item, current: Item, effects: seq<Effect>, places: nat)
    requires PathDay(ctx, previous, current, effects) && !ReadsAsSplit(ctx, previous, current, effects)
    requires CountedAtWorth(ctx, OpeningWalk(ctx, previous), effects, CloseUnit(ctx, current), OpenUnit(ctx, previous))
    requires var w := WalkEffects(ctx, OpeningWalk(ctx, previous), effects);
             LeavesLoneOpening(ctx, previous, w) && w.expected == InferredQuantity(current)
    ensures var b := DayBridge(ctx, HoldingComponent, previous, current, effects);
            Unexplained(effects, b, ItemValue(ctx, previous), ItemValue(ctx, current))
            == 0.0 <= Tolerance(places, ItemValue(ctx, previous))
  {
    hide SumOver, HoldingBridge, PathDay, ItemValue, WalkEffects, ReadsAsSplit;
    ReconciledDay(ctx, previous, current, effects);
    CountedSplits(effects);
    Pow10IsPositive(places);
  }

  /** A day read as a split leaves unexplained what its effects count less what left it. */
  lemma SplitDayUnexplained(ctx: Context, previous: Item, current: Item, effects: seq<Effect>)
    requires PathDay(ctx, previous, current, effects) && ReadsAsSplit(ctx, previous, current, effects)
    ensures var b := DayBridge(ctx, HoldingComponent, previous, current, effects);
            Unexplained(effects, b, ItemValue(ctx, previous), ItemValue(ctx, current))
            == SplitCount(ctx, previous, current, effects) - SumOver(effects, Counted())
  {
    hide SumOver, HoldingBridge, PathDay, ItemValue, ReadsAsSplit, SplitCount;
    SplitIsExplained(ctx, previous, current, effects);
    CountedSplits(effects);
  }

  /** A cash day records exactly the native gap at the closing rate, or nothing. */
  lemma CashResidualIsNativeGap(ctx: Context, previous: Item, current: Item, effects: seq<Effect>)
    requires CashDay(ctx, previous, current, effects)
    requires SumOver(effects, MovementShortfall(ctx)) == 0.0
    ensures var b := DayBridge(ctx, BalanceComponent, previous, current, effects);
            Unexplained(effects, b, SignedValue(ctx, previous), SignedValue(ctx, current))
            == (SignedNative(ctx, current) - SignedNative(ctx, previous) - SumOver(effects, Movement(ctx)))
               * Factor(ctx, RateForItem(current, ctx.base).0)
  {
    hide SumOver, CashBridge.CashBridge, CashDay, SignedValue, SignedNative, Factor;
    CashUnexplained(ctx, previous, current, effects);
    CountedSplits(effects);
  }
}
