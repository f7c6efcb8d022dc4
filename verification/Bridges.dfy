/** Price and FX attribution of one component over one day: a walk over the opening position
    and the day's events, each valued at its own price and rate and marked to the close. */
module Bridges {
  import opened AnalysisModel
  import opened Sums

  datatype Classification = InternalTransfer | Remeasurement | OtherClassification

  datatype Target = AccountCash | AccountValue | HoldingQuantity

  datatype Trade = Trade(holding: string, sell: bool, quantity: real, unitPrice: real, gross: real, currency: string)

  datatype Money = Money(amount: real, currency: string)

  /** A classified effect with the activity facts the bridges read; `amount` is its signed
      converted value, meaningful when `known`. */
  datatype Effect = Effect(activity: string, at: int, trade: Option<Trade>, positionTransfer: bool,
                           holding: Option<string>, quantity: Option<real>, money: Option<Money>, target: Target,
                           removed: bool, classification: Classification, costPrice: Option<real>,
                           bucket: Option<Bucket>, neutral: bool, known: bool, amount: real)

  /** A snapshot item with the quote and the FX rate selected for it. */
  datatype Item = Item(native: Option<real>, currency: string, price: Option<real>, rate: Option<real>)

  /** The component, the base currency, whether amounts are valued in it, and the FX rate in
      force at an instant. Rates are positive reals from native to base. */
  datatype Context = Context(holding: string, currency: string, base: string, baseValuation: bool,
                             liability: bool, rateAt: (string, int) -> Option<real>)

  datatype Bridge = Bridge(price: real, fx: real, partial: bool)

  const ZERO_BRIDGE := Bridge(0.0, 0.0, false)
  const PARTIAL_BRIDGE := Bridge(0.0, 0.0, true)

  const QUANTITY_TOLERANCE := 0.00000001

  function Convert(amount: real, native: string, base: string, rate: Option<real>): Option<real> {
    if native == base then Some(amount)
    else match rate case None => None case Some(r) => Some(amount * r)
  }

  /** The rate of an item: none is needed in the base currency. */
  function RateForItem(item: Item, base: string): (Option<real>, bool) {
    if item.currency == base then (None, true) else (item.rate, item.rate.Some?)
  }

  /** What an amount of the component's currency is worth at a rate, when it has one. */
  function Factor(ctx: Context, rate: Option<real>): real {
    if !ctx.baseValuation || ctx.currency == ctx.base || rate.None? then 1.0 else rate.value
  }

  function Signed(removed: bool, x: real): real {
    if removed then -x else x
  }

  // ----- The walk over the events of a holding

  datatype Segment = Segment(quantity: real, price: real, rate: Option<real>)

  datatype Walk = Walk(segments: seq<Segment>, expected: real, out: real, seen: set<string>) | Unpriced

  predicate IsTradeOf(e: Effect, holding: string) {
    e.trade.Some? && e.trade.value.holding == holding
  }

  predicate MovesPosition(e: Effect, holding: string) {
    e.positionTransfer && e.quantity.Some? && e.holding == Some(holding)
  }

  predicate IsPricedAdjustment(e: Effect) {
    e.classification.Remeasurement? && e.costPrice.Some?
  }

  /** A removal that leaves with its carrying value, not at the closing price. */
  predicate LeavesAtCarryingValue(e: Effect) {
    e.removed && (e.classification.InternalTransfer? || (e.costPrice.None? && e.bucket == Some(Adjustment) && e.known))
  }

  function EventRate(ctx: Context, currency: string, at: int): (Option<real>, bool) {
    if ctx.baseValuation && currency != ctx.base then (ctx.rateAt(currency, at), ctx.rateAt(currency, at).Some?)
    else (None, true)
  }

  function WalkTrade(ctx: Context, w: Walk, e: Effect): Walk
    requires w.Walk? && IsTradeOf(e, ctx.holding)
  {
    var (rate, ok) := EventRate(ctx, e.trade.value.currency, e.at);
    var quantity := Signed(e.trade.value.sell, e.trade.value.quantity);
    if !ok then Unpriced
    else Walk(w.segments + [Segment(quantity, e.trade.value.unitPrice, rate)], w.expected + quantity, w.out,
              w.seen + {e.activity})
  }

  function WalkMovement(ctx: Context, w: Walk, e: Effect): Walk
    requires w.Walk? && MovesPosition(e, ctx.holding)
  {
    var (rate, ok) := EventRate(ctx, ctx.currency, e.at);
    var quantity := Signed(e.removed, e.quantity.value);
    if IsPricedAdjustment(e) && !ok then Unpriced
    else Walk(if IsPricedAdjustment(e) then w.segments + [Segment(quantity, e.costPrice.value, rate)] else w.segments,
              w.expected + quantity,
              if LeavesAtCarryingValue(e) then w.out + e.quantity.value else w.out,
              w.seen)
  }

  /** A trade is walked once, however many effects it has on the holding. */
  function WalkEffect(ctx: Context, w: Walk, e: Effect): Walk {
    if w.Unpriced? then w
    else if IsTradeOf(e, ctx.holding) && e.activity in w.seen then w
    else
      var traded := if IsTradeOf(e, ctx.holding) then WalkTrade(ctx, w, e) else w;
      if traded.Walk? && MovesPosition(e, ctx.holding) then WalkMovement(ctx, traded, e) else traded
  }

  function WalkEffects(ctx: Context, start: Walk, effects: seq<Effect>): Walk {
    if effects == [] then start
    else WalkEffect(ctx, WalkEffects(ctx, start, effects[..|effects| - 1]), effects[|effects| - 1])
  }

  function UnpricedQuantity(ctx: Context): Effect -> real {
    (e: Effect) => if IsUnpricedAdjustment(ctx, e) then Signed(e.removed, e.quantity.value) else 0.0
  }

  predicate IsUnpricedAdjustment(ctx: Context, e: Effect) {
    e.trade.None? && MovesPosition(e, ctx.holding) && e.classification.Remeasurement? && e.costPrice.None?
  }

  function Max(x: real, y: real): real { if x < y then y else x }

  predicate HasUnpriced(ctx: Context, effects: seq<Effect>) {
    exists i :: 0 <= i < |effects| && IsUnpricedAdjustment(ctx, effects[i])
  }

  /** Unpriced adjustments are a split when they explain the quantity change and the notional
      value is kept up to the tolerance. */
  predicate IsRestatement(ctx: Context, effects: seq<Effect>, q0: real, qc: real, p0: real, pc: real) {
    && q0 != 0.0 && qc != 0.0 && p0 != 0.0 && pc != 0.0 && q0 != qc && HasUnpriced(ctx, effects)
    && SumOver(effects, UnpricedQuantity(ctx)) == qc - q0
    && Abs(q0 * p0 - qc * pc) <= QUANTITY_TOLERANCE * (Max(Abs(q0 * p0), Abs(qc * pc)) + 1.0)
  }

  /** The segments that are marked to the close: a split restates the opening one, and units
      that left at their carrying value leave a lone segment. None when more left than it had. */
  function FinalSegments(ctx: Context, w: Walk, effects: seq<Effect>, q0: real, qc: real, p0: Option<real>,
                         pc: real): Option<seq<Segment>>
    requires w.Walk?
  {
    var restated :=
      if p0.Some? && IsRestatement(ctx, effects, q0, qc, p0.value, pc) && |w.segments| == 1
      then [w.segments[0].(quantity := qc, price := p0.value / (qc / q0))]
      else w.segments;
    if w.out > 0.0 && |restated| == 1 then
      if restated[0].quantity - w.out < 0.0 then None
      else Some([restated[0].(quantity := restated[0].quantity - w.out)])
    else Some(restated)
  }

  function PriceOf(ctx: Context, pc: real): Segment -> real {
    (s: Segment) => s.quantity * (pc - s.price) * Factor(ctx, s.rate)
  }

  function FxOf(ctx: Context, pc: real, closeRate: Option<real>): Segment -> real {
    (s: Segment) =>
      if ctx.baseValuation
      then s.quantity * pc * Factor(ctx, closeRate) - s.quantity * pc * Factor(ctx, s.rate)
      else 0.0
  }

  predicate Converts(ctx: Context, rate: Option<real>) {
    !ctx.baseValuation || ctx.currency == ctx.base || rate.Some?
  }

  predicate AllConvert(ctx: Context, segments: seq<Segment>, closeRate: Option<real>) {
    forall i :: 0 <= i < |segments| ==> Converts(ctx, segments[i].rate) && Converts(ctx, closeRate)
  }

  /** The quantity an item holds at its quote; a zero item needs no quote. */
  function InferredQuantity(item: Item): real {
    if item.native.Some? && item.price.Some? && item.price.value != 0.0 then item.native.value / item.price.value
    else 0.0
  }

  function OpeningWalk(ctx: Context, previous: Item): Walk {
    var q0 := InferredQuantity(previous);
    var rate := if ctx.baseValuation then RateForItem(previous, ctx.base).0 else None;
    Walk(if q0 != 0.0 && previous.price.Some? then [Segment(q0, previous.price.value, rate)] else [], q0, 0.0, {})
  }

  /** The bridge leaves early, without amounts, when a value, quote or rate is missing. */
  predicate CanBridge(ctx: Context, previous: Item, current: Item) {
    && previous.native.Some? && current.native.Some? && current.price.Some?
    && (previous.price.Some? || previous.native.value == 0.0)
    && (!ctx.baseValuation || RateForItem(current, ctx.base).1)
    && (!ctx.baseValuation || InferredQuantity(previous) == 0.0 || RateForItem(previous, ctx.base).1)
  }

  function CloseRate(ctx: Context, current: Item): Option<real> {
    if ctx.baseValuation then RateForItem(current, ctx.base).0 else None
  }

  function HoldingBridge(ctx: Context, previous: Item, current: Item, effects: seq<Effect>): Bridge {
    if previous.native.Some? && current.native.Some? && previous.native.value == 0.0 && current.native.value == 0.0
        && effects == []
    then ZERO_BRIDGE
    else if !CanBridge(ctx, previous, current) then PARTIAL_BRIDGE
    else
      var w := WalkEffects(ctx, OpeningWalk(ctx, previous), effects);
      if w.Unpriced? then PARTIAL_BRIDGE
      else
        var q0, qc, pc := InferredQuantity(previous), InferredQuantity(current), current.price.value;
        var final := FinalSegments(ctx, w, effects, q0, qc, previous.price, pc);
        var closeRate := CloseRate(ctx, current);
        if final.None? then PARTIAL_BRIDGE
        else if !AllConvert(ctx, final.value, closeRate) then PARTIAL_BRIDGE
        else Bridge(SumOver(final.value, PriceOf(ctx, pc)), SumOver(final.value, FxOf(ctx, pc, closeRate)),
                    Abs(w.expected - qc) > QUANTITY_TOLERANCE)
  }

  // ----- The program's loops compute the bridge

  /** Prices are positive where the program divides by them. */
  ghost predicate PositiveQuotes(previous: Item, current: Item) {
    && (previous.price.Some? ==> previous.price.value > 0.0)
    && (current.price.Some? ==> current.price.value > 0.0)
  }

  /** One event of the walk. */
  method WalkOne(ctx: Context, w: Walk, e: Effect) returns (next: Walk)
    requires w.Walk?
    ensures next == WalkEffect(ctx, w, e)
  {
    var segments, expected, out, seen := w.segments, w.expected, w.out, w.seen;
    if IsTradeOf(e, ctx.holding) {
      if e.activity in seen {
        return w;
      }
      seen := seen + {e.activity};
      var quantity := if e.trade.value.sell then -e.trade.value.quantity else e.trade.value.quantity;
      var (rate, ok) := EventRate(ctx, e.trade.value.currency, e.at);
      if !ok {
        return Unpriced;
      }
      segments := segments + [Segment(quantity, e.trade.value.unitPrice, rate)];
      expected := expected + quantity;
    }
    if e.positionTransfer && e.quantity.Some? && e.holding == Some(ctx.holding) {
      var quantity := e.quantity.value;
      if e.classification.Remeasurement? && e.costPrice.Some? {
        var (rate, ok) := EventRate(ctx, ctx.currency, e.at);
        if !ok {
          return Unpriced;
        }
        segments := segments + [Segment(if e.removed then -quantity else quantity, e.costPrice.value, rate)];
      }
      if !e.removed {
        expected := expected + quantity;
      } else if e.classification.InternalTransfer? || (e.costPrice.None? && e.bucket == Some(Adjustment) && e.known) {
        expected := expected - quantity;
        out := out + quantity;
      } else {
        expected := expected - quantity;
      }
    }
    next := Walk(segments, expected, out, seen);
  }

  method WalkDay(ctx: Context, start: Walk, effects: seq<Effect>) returns (w: Walk)
    requires start.Walk?
    ensures w == WalkEffects(ctx, start, effects)
  {
    hide WalkEffect;
    w := start;
    for i := 0 to |effects|
      invariant w.Walk? && w == WalkEffects(ctx, start, effects[..i])
    {
      assert effects[..i + 1][..i] == effects[..i];
      w := WalkOne(ctx, w, effects[i]);
      if w.Unpriced? {
        UnpricedStays(ctx, start, effects, i + 1);
        return;
      }
    }
    assert effects[..|effects|] == effects;
  }

  lemma {:induction false} UnpricedStays(ctx: Context, start: Walk, effects: seq<Effect>, n: nat)
    requires n <= |effects| && WalkEffects(ctx, start, effects[..n]).Unpriced?
    ensures WalkEffects(ctx, start, effects).Unpriced?
    decreases |effects| - n
  {
    if n == |effects| {
      assert effects[..n] == effects;
    } else {
      assert effects[..n + 1][..n] == effects[..n];
      UnpricedStays(ctx, start, effects, n + 1);
    }
  }

  /** Adds up the unpriced adjustments of the holding and compares the notionals. */
  method CorporateActionRestatement(ctx: Context, effects: seq<Effect>, q0: real, qc: real, p0: real, pc: real)
    returns (restated: bool)
    ensures restated == IsRestatement(ctx, effects, q0, qc, p0, pc)
  {
    hide SumOver;
    if q0 == 0.0 || qc == 0.0 || p0 == 0.0 || pc == 0.0 || q0 == qc {
      return false;
    }
    var quantityDelta, seen := 0.0, false;
    SumZero([], UnpricedQuantity(ctx));
    for i := 0 to |effects|
      invariant quantityDelta == SumOver(effects[..i], UnpricedQuantity(ctx))
      invariant seen <==> exists j :: 0 <= j < i && IsUnpricedAdjustment(ctx, effects[j])
    {
      var e := effects[i];
      SumLast(effects, i, UnpricedQuantity(ctx));
      if e.trade.Some? || !e.positionTransfer || e.holding != Some(ctx.holding) || !e.classification.Remeasurement?
          || e.costPrice.Some? || e.quantity.None? {
        continue;
      }
      seen := true;
      quantityDelta := quantityDelta + if e.removed then -e.quantity.value else e.quantity.value;
    }
    assert effects[..|effects|] == effects;
    if !seen || quantityDelta != qc - q0 {
      return false;
    }
    var opening, closing := q0 * p0, qc * pc;
    restated := Abs(opening - closing) <= QUANTITY_TOLERANCE * (Max(Abs(opening), Abs(closing)) + 1.0);
  }

  /** Restates the lone segment of a split, and shortens a lone segment by what left. */
  method CloseSegments(ctx: Context, w: Walk, effects: seq<Effect>, q0: real, qc: real, p0: Option<real>, pc: real)
    returns (final: Option<seq<Segment>>)
    requires w.Walk?
    ensures final == FinalSegments(ctx, w, effects, q0, qc, p0, pc)
  {
    hide IsRestatement;
    var segments := w.segments;
    var restated := false;
    if p0.Some? {
      restated := CorporateActionRestatement(ctx, effects, q0, qc, p0.value, pc);
    }
    if restated && |segments| == 1 {
      RestatementIsDefined(ctx, effects, q0, qc, p0.value, pc);
      segments := [segments[0].(quantity := qc, price := p0.value / (qc / q0))];
    }
    if w.out > 0.0 && |segments| == 1 {
      segments := [segments[0].(quantity := segments[0].quantity - w.out)];
      if segments[0].quantity < 0.0 {
        return None;
      }
    }
    final := Some(segments);
  }

  lemma RestatementIsDefined(ctx: Context, effects: seq<Effect>, q0: real, qc: real, p0: real, pc: real)
    requires IsRestatement(ctx, effects, q0, qc, p0, pc)
    ensures q0 != 0.0 && qc != 0.0 && qc / q0 != 0.0
  {
    assert (qc / q0) * q0 == qc;
  }

  method ComputeHoldingBridge(ctx: Context, previous: Item, current: Item, effects: seq<Effect>) returns (b: Bridge)
    requires PositiveQuotes(previous, current)
    ensures b == HoldingBridge(ctx, previous, current, effects)
  {
    hide WalkEffects, SumOver, IsRestatement;
    if previous.native.None? || current.native.None? {
      return PARTIAL_BRIDGE;
    }
    var opening, closing := previous.native.value, current.native.value;
    if opening == 0.0 && closing == 0.0 && |effects| == 0 {
      return ZERO_BRIDGE;
    }
    if current.price.None? {
      return PARTIAL_BRIDGE;
    }
    var q0 := 0.0;
    if previous.price.Some? {
      q0 := opening / previous.price.value;
    } else if opening != 0.0 {
      return PARTIAL_BRIDGE;
    }
    var pc := current.price.value;
    var qc := closing / pc;
    var openRate, openOk := None, true;
    var closeRate, closeOk := None, true;
    if ctx.baseValuation {
      var c := RateForItem(current, ctx.base);
      closeRate, closeOk := c.0, c.1;
      if q0 != 0.0 {
        var o := RateForItem(previous, ctx.base);
        openRate, openOk := o.0, o.1;
      }
    }
    if !openOk || !closeOk {
      return PARTIAL_BRIDGE;
    }
    var segments := if q0 != 0.0 then [Segment(q0, previous.price.value, openRate)] else [];
    var w := WalkDay(ctx, Walk(segments, q0, 0.0, {}), effects);
    assert Walk(segments, q0, 0.0, {}) == OpeningWalk(ctx, previous);
    if w.Unpriced? {
      return PARTIAL_BRIDGE;
    }
    var final := CloseSegments(ctx, w, effects, q0, qc, previous.price, pc);
    if final.None? {
      return PARTIAL_BRIDGE;
    }
    b := MarkToClose(ctx, final.value, pc, closeRate, Abs(w.expected - qc) > QUANTITY_TOLERANCE);
  }

  lemma ConvertIsFactor(ctx: Context, amount: real, rate: Option<real>)
    requires ctx.baseValuation
    ensures var converted := Convert(amount, ctx.currency, ctx.base, rate);
            (converted.Some? <==> Converts(ctx, rate))
            && (converted.Some? ==> converted.value == amount * Factor(ctx, rate))
  {
    if ctx.currency == ctx.base {
      SameFactor(amount, Factor(ctx, rate), 1.0);
    } else if rate.Some? {
      SameFactor(amount, Factor(ctx, rate), rate.value);
    }
  }

  lemma SameFactor(x: real, f: real, g: real)
    requires f == g
    ensures x * f == x * g
  {
  }

  /** Marks one segment from its own price and rate to the closing ones. */
  method MarkSegment(ctx: Context, s: Segment, pc: real, closeRate: Option<real>) returns (marked: Option<(real, real)>)
    ensures marked.Some? <==> Converts(ctx, s.rate) && Converts(ctx, closeRate)
    ensures marked.Some? ==> marked.value.0 == PriceOf(ctx, pc)(s) && marked.value.1 == FxOf(ctx, pc, closeRate)(s)
  {
    var native := s.quantity * (pc - s.price);
    if !ctx.baseValuation {
      SameFactor(native, Factor(ctx, s.rate), 1.0);
      return Some((native, 0.0));
    }
    var priceBase := Convert(native, ctx.currency, ctx.base, s.rate);
    var atClose := Convert(s.quantity * pc, ctx.currency, ctx.base, closeRate);
    var atSegment := Convert(s.quantity * pc, ctx.currency, ctx.base, s.rate);
    ConvertIsFactor(ctx, native, s.rate);
    ConvertIsFactor(ctx, s.quantity * pc, closeRate);
    ConvertIsFactor(ctx, s.quantity * pc, s.rate);
    if priceBase.None? || atClose.None? || atSegment.None? {
      return None;
    }
    marked := Some((priceBase.value, atClose.value - atSegment.value));
  }

  method MarkToClose(ctx: Context, segments: seq<Segment>, pc: real, closeRate: Option<real>, mismatch: bool)
    returns (b: Bridge)
    ensures b == if !AllConvert(ctx, segments, closeRate) then PARTIAL_BRIDGE
                 else Bridge(SumOver(segments, PriceOf(ctx, pc)), SumOver(segments, FxOf(ctx, pc, closeRate)), mismatch)
  {
    hide SumOver, PriceOf, FxOf, Converts;
    var price, fx := 0.0, 0.0;
    SumZero(segments[..0], PriceOf(ctx, pc));
    SumZero(segments[..0], FxOf(ctx, pc, closeRate));
    for i := 0 to |segments|
      invariant price == SumOver(segments[..i], PriceOf(ctx, pc))
      invariant fx == SumOver(segments[..i], FxOf(ctx, pc, closeRate))
      invariant AllConvert(ctx, segments[..i], closeRate)
    {
      assert segments[..i + 1] == segments[..i] + [segments[i]];
      SumLast(segments, i, PriceOf(ctx, pc));
      SumLast(segments, i, FxOf(ctx, pc, closeRate));
      var marked := MarkSegment(ctx, segments[i], pc, closeRate);
      if marked.None? {
        assert !AllConvert(ctx, segments, closeRate);
        return PARTIAL_BRIDGE;
      }
      price := price + marked.value.0;
      fx := fx + marked.value.1;
    }
    assert segments[..|segments|] == segments;
    b := Bridge(price, fx, mismatch);
  }

  // ----- What the holding bridge leaves unexplained

  function AtClose(a: real): Segment -> real {
    (s: Segment) => s.quantity * a
  }

  function Cost(ctx: Context): Segment -> real {
    (s: Segment) => s.quantity * s.price * Factor(ctx, s.rate)
  }

  /** The effects whose value the day's waterfall counts, directly or as a neutral leg. */
  function Counted(): Effect -> real {
    (e: Effect) => if e.known && (e.bucket.Some? || e.neutral) then e.amount else 0.0
  }

  /** What a position movement should be worth: its own price for a priced adjustment, the
      opening value `o` a unit for what leaves at carrying value, else the closing value `a`. */
  function MovementWorth(ctx: Context, e: Effect, a: real, o: real): real
    requires e.quantity.Some?
  {
    if IsPricedAdjustment(e)
    then Signed(e.removed, e.quantity.value) * e.costPrice.value * Factor(ctx, EventRate(ctx, ctx.currency, e.at).0)
    else if LeavesAtCarryingValue(e) then -e.quantity.value * o
    else Signed(e.removed, e.quantity.value) * a
  }

  function TradeWorth(ctx: Context, e: Effect): real
    requires e.trade.Some?
  {
    var t := e.trade.value;
    Signed(t.sell, t.quantity) * t.unitPrice * Factor(ctx, EventRate(ctx, t.currency, e.at).0)
  }

  /** What an effect is worth on the walk. */
  function Worth(ctx: Context, w: Walk, e: Effect, a: real, o: real): real
    requires w.Walk?
  {
    if IsTradeOf(e, ctx.holding) && e.activity in w.seen then 0.0
    else
      (if IsTradeOf(e, ctx.holding) then TradeWorth(ctx, e) else 0.0)
      + (if MovesPosition(e, ctx.holding) then MovementWorth(ctx, e, a, o) else 0.0)
  }

  /** How far the counted values of the day's effects fall short of their worth. */
  function Shortfall(ctx: Context, start: Walk, effects: seq<Effect>, a: real, o: real): real
    requires WalkEffects(ctx, start, effects).Walk?
  {
    if effects == [] then 0.0
    else
      var front, e := effects[..|effects| - 1], effects[|effects| - 1];
      Shortfall(ctx, start, front, a, o) + Worth(ctx, WalkEffects(ctx, start, front), e, a, o) - Counted()(e)
  }

  lemma MovementStep(ctx: Context, w: Walk, e: Effect, a: real, o: real)
    requires w.Walk? && MovesPosition(e, ctx.holding) && WalkMovement(ctx, w, e).Walk?
    ensures var next := WalkMovement(ctx, w, e);
            next.expected * a - SumOver(next.segments, AtClose(a)) + SumOver(next.segments, Cost(ctx))
                - next.out * (o - a)
            == w.expected * a - SumOver(w.segments, AtClose(a)) + SumOver(w.segments, Cost(ctx)) - w.out * (o - a)
               + MovementWorth(ctx, e, a, o)
  {
    hide SumOver;
    var next := WalkMovement(ctx, w, e);
    var q := Signed(e.removed, e.quantity.value);
    assert next.expected * a == w.expected * a + q * a;
    if IsPricedAdjustment(e) {
      OneMoreSegment(ctx, w.segments, next.segments[|w.segments|], a);
      assert next.segments == w.segments + [next.segments[|w.segments|]];
    } else if LeavesAtCarryingValue(e) {
      assert next.out * (o - a) == w.out * (o - a) + e.quantity.value * o - e.quantity.value * a;
    }
  }

  lemma OneMoreSegment(ctx: Context, segments: seq<Segment>, s: Segment, a: real)
    ensures SumOver(segments + [s], AtClose(a)) == SumOver(segments, AtClose(a)) + s.quantity * a
    ensures SumOver(segments + [s], Cost(ctx))
            == SumOver(segments, Cost(ctx)) + s.quantity * s.price * Factor(ctx, s.rate)
  {
    hide SumOver, Factor;
    SumOneMore(segments, s, AtClose(a));
    SumOneMore(segments, s, Cost(ctx));
  }

  lemma TradeStep(ctx: Context, w: Walk, e: Effect, a: real, o: real)
    requires w.Walk? && IsTradeOf(e, ctx.holding) && WalkTrade(ctx, w, e).Walk?
    ensures var next := WalkTrade(ctx, w, e);
            next.expected * a - SumOver(next.segments, AtClose(a)) + SumOver(next.segments, Cost(ctx))
                - next.out * (o - a)
            == w.expected * a - SumOver(w.segments, AtClose(a)) + SumOver(w.segments, Cost(ctx)) - w.out * (o - a)
               + TradeWorth(ctx, e)
  {
    hide SumOver;
    var next := WalkTrade(ctx, w, e);
    var q := Signed(e.trade.value.sell, e.trade.value.quantity);
    assert next.expected * a == w.expected * a + q * a;
    OneMoreSegment(ctx, w.segments, next.segments[|w.segments|], a);
    assert next.segments == w.segments + [next.segments[|w.segments|]];
  }

  /** What the walk carries, beyond its start, is what its effects are worth. */
  function Carried(ctx: Context, w: Walk, a: real, o: real): real
    requires w.Walk?
  {
    w.expected * a - SumOver(w.segments, AtClose(a)) + SumOver(w.segments, Cost(ctx)) - w.out * (o - a)
  }

  lemma {:induction false} WalkCarriesWorth(ctx: Context, start: Walk, effects: seq<Effect>, a: real, o: real)
    requires start.Walk? && WalkEffects(ctx, start, effects).Walk?
    ensures Carried(ctx, WalkEffects(ctx, start, effects), a, o)
         == Carried(ctx, start, a, o) + SumOver(effects, Counted()) + Shortfall(ctx, start, effects, a, o)
  {
    hide WalkTrade, WalkMovement, TradeWorth, MovementWorth, Carried, Counted;
    if effects != [] {
      var n := |effects| - 1;
      var front, e := effects[..n], effects[n];
      WalkCarriesWorth(ctx, start, front, a, o);
      assert effects == front + [e];
      SumAppend(front, [e], Counted());
      assert SumOver([e], Counted()) == Counted()(e);
      CarriedStep(ctx, WalkEffects(ctx, start, front), e, a, o);
    }
  }

  lemma CarriedStep(ctx: Context, w: Walk, e: Effect, a: real, o: real)
    requires w.Walk? && WalkEffect(ctx, w, e).Walk?
    ensures Carried(ctx, WalkEffect(ctx, w, e), a, o) == Carried(ctx, w, a, o) + Worth(ctx, w, e, a, o)
  {
    hide WalkTrade, WalkMovement, TradeWorth, MovementWorth, SumOver;
    if !(IsTradeOf(e, ctx.holding) && e.activity in w.seen) {
      var traded := w;
      if IsTradeOf(e, ctx.holding) {
        TradeStep(ctx, w, e, a, o);
        traded := WalkTrade(ctx, w, e);
      }
      if MovesPosition(e, ctx.holding) {
        MovementStep(ctx, traded, e, a, o);
      }
    }
  }

  /** Marking to the close telescopes: the bridge is the closing worth of the segments less
      their own. */
  lemma {:induction false} MarkTelescopes(ctx: Context, segments: seq<Segment>, pc: real, closeRate: Option<real>,
                                          a: real)
    requires a == pc * Factor(ctx, closeRate)
    ensures SumOver(segments, PriceOf(ctx, pc)) + SumOver(segments, FxOf(ctx, pc, closeRate))
         == SumOver(segments, AtClose(a)) - SumOver(segments, Cost(ctx))
  {
    hide PriceOf, FxOf, AtClose, Cost, Factor;
    if segments != [] {
      MarkTelescopes(ctx, segments[1..], pc, closeRate, a);
      MarkOne(ctx, segments[0], pc, closeRate, a);
    }
  }

  lemma MarkOne(ctx: Context, s: Segment, pc: real, closeRate: Option<real>, a: real)
    requires a == pc * Factor(ctx, closeRate)
    ensures PriceOf(ctx, pc)(s) + FxOf(ctx, pc, closeRate)(s) == AtClose(a)(s) - Cost(ctx)(s)
  {
    var r, c := Factor(ctx, s.rate), Factor(ctx, closeRate);
    assert s.quantity * (pc - s.price) * r == s.quantity * pc * r - s.quantity * s.price * r;
    assert s.quantity * (pc * c) == s.quantity * pc * c;
  }

  /** A holding day that is bridged to the end: both ends valued, every event priced. */
  ghost predicate PathDay(ctx: Context, previous: Item, current: Item, effects: seq<Effect>) {
    && PositiveQuotes(previous, current) && CanBridge(ctx, previous, current)
    && (previous.native.value != 0.0 || current.native.value != 0.0 || effects != [])
    && previous.currency == ctx.currency == current.currency
    && var w := WalkEffects(ctx, OpeningWalk(ctx, previous), effects);
       && w.Walk?
       && var final :=
           FinalSegments(ctx, w, effects, InferredQuantity(previous), InferredQuantity(current), previous.price,
                         current.price.value);
          && final.Some? && AllConvert(ctx, final.value, CloseRate(ctx, current))
  }

  /** The day is read as a split: one segment, which is restated. */
  ghost predicate ReadsAsSplit(ctx: Context, previous: Item, current: Item, effects: seq<Effect>)
    requires current.price.Some?
  {
    var w := WalkEffects(ctx, OpeningWalk(ctx, previous), effects);
    && w.Walk? && |w.segments| == 1 && previous.price.Some?
    && IsRestatement(ctx, effects, InferredQuantity(previous), InferredQuantity(current), previous.price.value,
                     current.price.value)
  }

  /** What a unit was worth at the opening; nothing without an earlier quote. */
  function OpenUnit(ctx: Context, previous: Item): real {
    if previous.price.None? then 0.0 else previous.price.value * Factor(ctx, RateForItem(previous, ctx.base).0)
  }

  function CloseUnit(ctx: Context, current: Item): real
    requires current.price.Some?
  {
    current.price.value * Factor(ctx, CloseRate(ctx, current))
  }

  /** What a restated unit was worth at the opening. */
  function RestatedUnit(ctx: Context, previous: Item, current: Item): real {
    var q0, qc := InferredQuantity(previous), InferredQuantity(current);
    if q0 == 0.0 || qc == 0.0 || qc / q0 == 0.0 then 0.0 else OpenUnit(ctx, previous) / (qc / q0)
  }

  /** The value of an item in the valuation currency. */
  function ItemValue(ctx: Context, item: Item): real {
    if item.native.None? then 0.0 else item.native.value * Factor(ctx, RateForItem(item, ctx.base).0)
  }

  /** What units that left at their opening value distort: nothing when they leave the lone
      opening segment, which the bridge shortens; otherwise they are still marked to the close. */
  function LeavingDistortion(ctx: Context, w: Walk, a: real, o: real): real
    requires w.Walk?
  {
    if w.out > 0.0 && |w.segments| == 1 then w.out * (o - w.segments[0].price * Factor(ctx, w.segments[0].rate))
    else w.out * (o - a)
  }

  /** On a day read as a split, units leave at the restated opening value, and the change in
      quantity is no acquisition. */
  function SplitDistortion(w: Walk, q0: real, qc: real, a: real, o: real, restated: real): real
    requires w.Walk?
  {
    (if w.out > 0.0 then w.out * (o - restated) else w.out * (o - a)) - (qc - q0) * a
  }

  /** The bridge is what the final segments are marked to, whether or not they were restated. */
  lemma BridgeOfPath(ctx: Context, previous: Item, current: Item, effects: seq<Effect>)
    requires PathDay(ctx, previous, current, effects)
    ensures var b := HoldingBridge(ctx, previous, current, effects);
            var w := WalkEffects(ctx, OpeningWalk(ctx, previous), effects);
            var pc := current.price.value;
            var segments :=
                FinalSegments(ctx, w, effects, InferredQuantity(previous), InferredQuantity(current), previous.price,
                              pc).value;
            && b.price == SumOver(segments, PriceOf(ctx, pc))
            && b.fx == SumOver(segments, FxOf(ctx, pc, CloseRate(ctx, current)))
  {
    hide WalkEffects, SumOver, IsRestatement, PriceOf, FxOf, FinalSegments, AllConvert;
    var w := WalkEffects(ctx, OpeningWalk(ctx, previous), effects);
    var q0, qc, pc := InferredQuantity(previous), InferredQuantity(current), current.price.value;
    var segments := FinalSegments(ctx, w, effects, q0, qc, previous.price, pc).value;
    var closeRate := CloseRate(ctx, current);
    assert HoldingBridge(ctx, previous, current, effects)
        == Bridge(SumOver(segments, PriceOf(ctx, pc)), SumOver(segments, FxOf(ctx, pc, closeRate)),
                  Abs(w.expected - qc) > QUANTITY_TOLERANCE);
  }

  /** What segments are marked to: their closing worth less their own. */
  function Marked(ctx: Context, segments: seq<Segment>, a: real): real {
    SumOver(segments, AtClose(a)) - SumOver(segments, Cost(ctx))
  }

  lemma MarkedOne(ctx: Context, s: Segment, a: real)
    ensures Marked(ctx, [s], a) == s.quantity * a - s.quantity * (s.price * Factor(ctx, s.rate))
  {
    hide SumOver, Factor;
    SumZero([], AtClose(a));
    SumZero([], Cost(ctx));
    SumOneMore([], s, AtClose(a));
    SumOneMore([], s, Cost(ctx));
    assert [] + [s] == [s];
    SameProduct(s.quantity, s.price, Factor(ctx, s.rate));
  }

  lemma SameProduct(x: real, y: real, z: real)
    ensures x * y * z == x * (y * z)
  {
  }

  lemma {:induction false} WalkKeepsStart(ctx: Context, start: Walk, effects: seq<Effect>)
    requires start.Walk? && WalkEffects(ctx, start, effects).Walk?
    ensures start.segments <= WalkEffects(ctx, start, effects).segments
  {
    if effects != [] { WalkKeepsStart(ctx, start, effects[..|effects| - 1]); }
  }

  /** A day read as a split walked nothing but its opening segment. */
  lemma SplitWalksOpening(ctx: Context, previous: Item, current: Item, effects: seq<Effect>)
    requires PathDay(ctx, previous, current, effects) && ReadsAsSplit(ctx, previous, current, effects)
    ensures InferredQuantity(previous) != 0.0 && InferredQuantity(current) != 0.0
    ensures InferredQuantity(current) / InferredQuantity(previous) != 0.0
    ensures var start := OpeningWalk(ctx, previous);
            |start.segments| == 1 && WalkEffects(ctx, start, effects).segments == start.segments
  {
    hide WalkEffects, IsRestatement;
    WalkKeepsStart(ctx, OpeningWalk(ctx, previous), effects);
    RestatementIsDefined(ctx, effects, InferredQuantity(previous), InferredQuantity(current), previous.price.value,
                         current.price.value);
  }

  lemma RestatedCost(q0: real, qc: real, p0: real, f: real)
    requires q0 != 0.0 && qc != 0.0 && qc / q0 != 0.0
    ensures (p0 / (qc / q0)) * f == (p0 * f) / (qc / q0)
    ensures qc * ((p0 * f) / (qc / q0)) == q0 * (p0 * f)
  {
    var ratio := qc / q0;
    assert ratio * q0 == qc;
    QuotientOfProduct(p0, f, ratio);
    var unit := (p0 * f) / ratio;
    assert unit * ratio == p0 * f;
    assert qc * unit == (ratio * q0) * unit == q0 * (unit * ratio);
  }

  lemma QuotientOfProduct(x: real, f: real, ratio: real)
    requires ratio != 0.0
    ensures (x / ratio) * f == (x * f) / ratio
  {
    var y := x / ratio;
    assert y * ratio == x;
    assert (y * f) * ratio == x * f;
  }

  /** How the marks of the day differ from those of its walk. */
  lemma FinalMarks(ctx: Context, previous: Item, current: Item, effects: seq<Effect>)
    requires PathDay(ctx, previous, current, effects)
    ensures var w := WalkEffects(ctx, OpeningWalk(ctx, previous), effects);
            var q0, qc, pc := InferredQuantity(previous), InferredQuantity(current), current.price.value;
            var a, o := CloseUnit(ctx, current), OpenUnit(ctx, previous);
            var final := FinalSegments(ctx, w, effects, q0, qc, previous.price, pc).value;
            w.out * (o - a) + Marked(ctx, w.segments, a) - Marked(ctx, final, a)
            == if ReadsAsSplit(ctx, previous, current, effects)
                then SplitDistortion(w, q0, qc, a, o, RestatedUnit(ctx, previous, current))
               else LeavingDistortion(ctx, w, a, o)
  {
    hide WalkEffects, SumOver, IsRestatement, Marked, Factor, Converts, RestatedUnit;
    var w := WalkEffects(ctx, OpeningWalk(ctx, previous), effects);
    var q0, qc, pc := InferredQuantity(previous), InferredQuantity(current), current.price.value;
    var a, o := CloseUnit(ctx, current), OpenUnit(ctx, previous);
    var final := FinalSegments(ctx, w, effects, q0, qc, previous.price, pc).value;
    if ReadsAsSplit(ctx, previous, current, effects) {
      SplitMarks(ctx, previous, current, effects);
    } else if w.out > 0.0 && |w.segments| == 1 {
      var s := w.segments[0];
      var unit := s.price * Factor(ctx, s.rate);
      assert w.segments == [s] && final == [s.(quantity := s.quantity - w.out)];
      MarkedOne(ctx, s, a);
      MarkedOne(ctx, s.(quantity := s.quantity - w.out), a);
      Shortened(s.quantity, w.out, a, o, unit);
    } else {
      assert final == w.segments;
    }
  }

  lemma Shortened(q: real, out: real, a: real, o: real, unit: real)
    ensures out * (o - a) + (q * a - q * unit) - ((q - out) * a - (q - out) * unit) == out * (o - unit)
  {
    assert (q - out) * a == q * a - out * a && (q - out) * unit == q * unit - out * unit;
    assert out * (o - a) == out * o - out * a && out * (o - unit) == out * o - out * unit;
  }

  /** The segments of a day read as a split: the opening one, restated, and shortened by what left. */
  lemma SplitSegments(ctx: Context, previous: Item, current: Item, effects: seq<Effect>)
    requires PathDay(ctx, previous, current, effects) && ReadsAsSplit(ctx, previous, current, effects)
    ensures var w := WalkEffects(ctx, OpeningWalk(ctx, previous), effects);
            var q0, qc := InferredQuantity(previous), InferredQuantity(current);
            var s := w.segments[0];
            var final := FinalSegments(ctx, w, effects, q0, qc, previous.price, current.price.value).value;
            && q0 != 0.0 && qc / q0 != 0.0 && w.segments == [s] && s.quantity == q0
            && |final| == 1
            && final[0] == Segment(if w.out > 0.0 then qc - w.out else qc, previous.price.value / (qc / q0), s.rate)
            && s.price * Factor(ctx, s.rate) == OpenUnit(ctx, previous)
            && final[0].price * Factor(ctx, s.rate) == RestatedUnit(ctx, previous, current)
  {
    hide WalkEffects, IsRestatement, Converts, CanBridge;
    SplitWalksOpening(ctx, previous, current, effects);
    var w := WalkEffects(ctx, OpeningWalk(ctx, previous), effects);
    LoneOpening(ctx, previous);
    RestatedCost(InferredQuantity(previous), InferredQuantity(current), previous.price.value,
                 Factor(ctx, w.segments[0].rate));
  }

  lemma SplitMarks(ctx: Context, previous: Item, current: Item, effects: seq<Effect>)
    requires PathDay(ctx, previous, current, effects) && ReadsAsSplit(ctx, previous, current, effects)
    ensures var w := WalkEffects(ctx, OpeningWalk(ctx, previous), effects);
            var q0, qc, pc := InferredQuantity(previous), InferredQuantity(current), current.price.value;
            var a, o := CloseUnit(ctx, current), OpenUnit(ctx, previous);
            var final := FinalSegments(ctx, w, effects, q0, qc, previous.price, pc).value;
            w.out * (o - a) + Marked(ctx, w.segments, a) - Marked(ctx, final, a)
            == SplitDistortion(w, q0, qc, a, o, RestatedUnit(ctx, previous, current))
  {
    hide WalkEffects, IsRestatement, Marked, ReadsAsSplit, FinalSegments, InferredQuantity, CloseUnit, OpenUnit,
         RestatedUnit, Factor, Converts, OpeningWalk;
    PathIsWalked(ctx, previous, current, effects);
    SplitSegments(ctx, previous, current, effects);
    var w := WalkEffects(ctx, OpeningWalk(ctx, previous), effects);
    var q0, qc := InferredQuantity(previous), InferredQuantity(current);
    var a, o, restated := CloseUnit(ctx, current), OpenUnit(ctx, previous), RestatedUnit(ctx, previous, current);
    var s := w.segments[0];
    var f := FinalSegments(ctx, w, effects, q0, qc, previous.price, current.price.value).value[0];
    assert FinalSegments(ctx, w, effects, q0, qc, previous.price, current.price.value).value == [f];
    MarkedOne(ctx, s, a);
    MarkedOne(ctx, f, a);
    SplitDifference(q0, qc, w.out, a, o, restated);
    SplitCarriesOpening(ctx, previous, current, q0, qc, o, restated);
  }

  lemma SplitCarriesOpening(ctx: Context, previous: Item, current: Item, q0: real, qc: real, o: real, restated: real)
    requires q0 == InferredQuantity(previous) && qc == InferredQuantity(current) && q0 != 0.0 && qc / q0 != 0.0
    requires o == OpenUnit(ctx, previous) && restated == RestatedUnit(ctx, previous, current)
    ensures qc * restated == q0 * o
  {
    hide InferredQuantity, Factor;
    var ratio := qc / q0;
    assert ratio * q0 == qc && restated * ratio == o by {
      assert qc != 0.0;
    }
    assert qc * restated == (ratio * q0) * restated == q0 * (restated * ratio);
  }

  lemma SplitDifference(q0: real, qc: real, out: real, a: real, o: real, restated: real)
    ensures qc * restated == q0 * o ==>
              out * (o - a) + (q0 * a - q0 * o) - ((qc - out) * a - (qc - out) * restated)
              == out * (o - restated) - (qc - q0) * a
    ensures qc * restated == q0 * o
            ==> out * (o - a) + (q0 * a - q0 * o) - (qc * a - qc * restated) == out * (o - a) - (qc - q0) * a
  {
    assert (qc - out) * a == qc * a - out * a && (qc - out) * restated == qc * restated - out * restated;
    assert (qc - q0) * a == qc * a - q0 * a;
    assert out * (o - a) == out * o - out * a && out * (o - restated) == out * o - out * restated;
  }

  /** On any bridged day the unexplained amount is exactly the quantity gap at the closing value,
      plus what the effects were counted short of their worth, plus the distortion of units that
      left, or of a restatement. */
  lemma HoldingUnexplained(ctx: Context, previous: Item, current: Item, effects: seq<Effect>)
    requires PathDay(ctx, previous, current, effects)
    ensures var b := HoldingBridge(ctx, previous, current, effects);
            var w := WalkEffects(ctx, OpeningWalk(ctx, previous), effects);
            var a, o := CloseUnit(ctx, current), OpenUnit(ctx, previous);
            var q0, qc := InferredQuantity(previous), InferredQuantity(current);
            ItemValue(ctx, current) - ItemValue(ctx, previous) - SumOver(effects, Counted()) - b.price - b.fx
            == (qc - w.expected) * a
               + Shortfall(ctx, OpeningWalk(ctx, previous), effects, a, o)
               + if ReadsAsSplit(ctx, previous, current, effects)
                   then SplitDistortion(w, q0, qc, a, o, RestatedUnit(ctx, previous, current))
                 else LeavingDistortion(ctx, w, a, o)
  {
    hide WalkEffects, SumOver, IsRestatement, Shortfall, Converts, PriceOf, FxOf, AtClose, Cost, Counted, Factor,
         ItemValue, InferredQuantity, CloseRate, SplitDistortion, LeavingDistortion, RestatedUnit, FinalSegments,
         ReadsAsSplit, HoldingBridge;
    var start := OpeningWalk(ctx, previous);
    var w := WalkEffects(ctx, start, effects);
    var a, o := CloseUnit(ctx, current), OpenUnit(ctx, previous);
    var q0, qc, pc := InferredQuantity(previous), InferredQuantity(current), current.price.value;
    var segments := FinalSegments(ctx, w, effects, q0, qc, previous.price, pc).value;
    WalkCarriesWorth(ctx, start, effects, a, o);
    OpeningCarries(ctx, previous, a, o);
    MarkTelescopes(ctx, segments, pc, CloseRate(ctx, current), a);
    BothEndsValued(ctx, previous, current);
    BridgeOfPath(ctx, previous, current, effects);
    FinalMarks(ctx, previous, current, effects);
    assert (qc - w.expected) * a == qc * a - w.expected * a;
  }

  lemma OpeningCarries(ctx: Context, previous: Item, a: real, o: real)
    requires previous.native.Some? && (previous.price.Some? ==> previous.price.value > 0.0)
             && o == OpenUnit(ctx, previous)
    ensures Carried(ctx, OpeningWalk(ctx, previous), a, o) == InferredQuantity(previous) * o
  {
    var s := OpeningWalk(ctx, previous).segments;
    var q0 := InferredQuantity(previous);
    if s != [] {
      assert SumOver(s, AtClose(a)) == AtClose(a)(s[0]);
      assert SumOver(s, Cost(ctx)) == Cost(ctx)(s[0]);
      assert q0 * previous.price.value * Factor(ctx, s[0].rate) == q0 * o;
    }
  }

  lemma BothEndsValued(ctx: Context, previous: Item, current: Item)
    requires previous.native.Some? && (previous.price.Some? || previous.native.value == 0.0) && current.native.Some?
             && current.price.Some?
    requires PositiveQuotes(previous, current)
    ensures ItemValue(ctx, previous) == InferredQuantity(previous) * OpenUnit(ctx, previous)
    ensures ItemValue(ctx, current) == InferredQuantity(current) * CloseUnit(ctx, current)
  {
    if previous.price.Some? {
      assert previous.native.value == InferredQuantity(previous) * previous.price.value;
    }
    assert current.native.value == InferredQuantity(current) * current.price.value;
  }

  // ----- Days that reconcile

  /** Every effect is counted at its worth: trades at gross equal to quantity times price, once
      each; transfers in at the closing value; what left at the opening value. */
  ghost predicate CountedAtWorth(ctx: Context, start: Walk, effects: seq<Effect>, a: real, o: real) {
    forall n :: 0 <= n < |effects| ==>
      var w := WalkEffects(ctx, start, effects[..n]);
      w.Walk? ==> Counted()(effects[n]) == Worth(ctx, w, effects[n], a, o)
  }

  lemma {:induction false} NoShortfall(ctx: Context, start: Walk, effects: seq<Effect>, n: nat, a: real, o: real)
    requires CountedAtWorth(ctx, start, effects, a, o)
    requires n <= |effects| && WalkEffects(ctx, start, effects[..n]).Walk?
    ensures Shortfall(ctx, start, effects[..n], a, o) == 0.0
  {
    hide Worth, Counted;
    if n > 0 {
      assert effects[..n][..n - 1] == effects[..n - 1];
      NoShortfall(ctx, start, effects, n - 1, a, o);
    }
  }

  /** Only trades of the holding happened. */
  ghost predicate TradesOnly(ctx: Context, effects: seq<Effect>) {
    forall i :: 0 <= i < |effects| ==> IsTradeOf(effects[i], ctx.holding) && !effects[i].positionTransfer
  }

  lemma {:induction false} NothingLeaves(ctx: Context, start: Walk, effects: seq<Effect>)
    requires TradesOnly(ctx, effects) && start.Walk? && start.out == 0.0
    ensures WalkEffects(ctx, start, effects).Walk? ==> WalkEffects(ctx, start, effects).out == 0.0
  {
    if effects != [] { NothingLeaves(ctx, start, effects[..|effects| - 1]); }
  }

  lemma TradesAreNoSplit(ctx: Context, previous: Item, current: Item, effects: seq<Effect>)
    requires TradesOnly(ctx, effects) && current.price.Some?
    ensures !ReadsAsSplit(ctx, previous, current, effects)
  {
    hide WalkEffects, SumOver;
  }

  /** On a day of trades only, the first purchase of an instrument included, the unexplained amount
      is the quantity the trades do not account for, at the closing price and rate. */
  lemma TradeOnlyDay(ctx: Context, previous: Item, current: Item, effects: seq<Effect>)
    requires PathDay(ctx, previous, current, effects) && TradesOnly(ctx, effects)
    requires CountedAtWorth(ctx, OpeningWalk(ctx, previous), effects, CloseUnit(ctx, current), OpenUnit(ctx, previous))
    ensures var b := HoldingBridge(ctx, previous, current, effects);
            var w := WalkEffects(ctx, OpeningWalk(ctx, previous), effects);
            ItemValue(ctx, current) - ItemValue(ctx, previous) - SumOver(effects, Counted()) - b.price - b.fx
            == (InferredQuantity(current) - w.expected) * CloseUnit(ctx, current)
  {
    hide HoldingBridge, ReadsAsSplit, IsRestatement, SumOver, ItemValue, InferredQuantity, CountedAtWorth, CloseUnit,
         OpenUnit, FinalSegments, SplitDistortion;
    var start := OpeningWalk(ctx, previous);
    HoldingUnexplained(ctx, previous, current, effects);
    TradesAreNoSplit(ctx, previous, current, effects);
    assert effects[..|effects|] == effects;
    NoShortfall(ctx, start, effects, |effects|, CloseUnit(ctx, current), OpenUnit(ctx, previous));
    NothingLeaves(ctx, start, effects);
  }

  /** Units left at their carrying value only from a position with no other event. */
  ghost predicate LeavesLoneOpening(ctx: Context, previous: Item, w: Walk) {
    w.Walk? && (w.out == 0.0 || (w.out > 0.0 && w.segments == OpeningWalk(ctx, previous).segments && |w.segments| == 1))
  }

  /** When the walk accounts for the closing quantity, every event is counted at its worth and the
      day does not read as a split, price, FX and the counted events add up to the change in value. */
  lemma ReconciledDay(ctx: Context, previous: Item, current: Item, effects: seq<Effect>)
    requires PathDay(ctx, previous, current, effects) && !ReadsAsSplit(ctx, previous, current, effects)
    requires CountedAtWorth(ctx, OpeningWalk(ctx, previous), effects, CloseUnit(ctx, current), OpenUnit(ctx, previous))
    requires var w := WalkEffects(ctx, OpeningWalk(ctx, previous), effects);
             LeavesLoneOpening(ctx, previous, w) && w.expected == InferredQuantity(current)
    ensures var b := HoldingBridge(ctx, previous, current, effects);
            b.price + b.fx + SumOver(effects, Counted()) == ItemValue(ctx, current) - ItemValue(ctx, previous)
  {
    hide HoldingBridge, ReadsAsSplit, IsRestatement, SumOver, ItemValue, InferredQuantity, CountedAtWorth, CloseUnit,
         WalkEffects, FinalSegments, Factor, SplitDistortion;
    var start := OpeningWalk(ctx, previous);
    HoldingUnexplained(ctx, previous, current, effects);
    assert effects[..|effects|] == effects;
    NoShortfall(ctx, start, effects, |effects|, CloseUnit(ctx, current), OpenUnit(ctx, previous));
    var w, a, o := WalkEffects(ctx, start, effects), CloseUnit(ctx, current), OpenUnit(ctx, previous);
    assert LeavingDistortion(ctx, w, a, o) == 0.0 by {
      if w.out > 0.0 {
        LoneOpening(ctx, previous);
        SameFactor(w.out, o - w.segments[0].price * Factor(ctx, w.segments[0].rate), 0.0);
      }
    }
    SameFactor(a, InferredQuantity(current) - w.expected, 0.0);
  }

  lemma LoneOpening(ctx: Context, previous: Item)
    requires |OpeningWalk(ctx, previous).segments| == 1
    ensures var s := OpeningWalk(ctx, previous).segments[0]; s.price * Factor(ctx, s.rate) == OpenUnit(ctx, previous)
  {
  }

  // ----- Days that read as a split

  /** What an effect takes from the position at its carrying value. */
  function LeavingOf(ctx: Context): Effect -> real {
    (e: Effect) => if MovesPosition(e, ctx.holding) && LeavesAtCarryingValue(e) then e.quantity.value else 0.0
  }

  /** A walk that adds no segment meets no trade, so what leaves it is told by the effects. */
  lemma {:induction false} LeavingIsSeen(ctx: Context, start: Walk, effects: seq<Effect>)
    requires start.Walk? && start.seen == {} && WalkEffects(ctx, start, effects).Walk?
    requires |WalkEffects(ctx, start, effects).segments| == |start.segments|
    ensures WalkEffects(ctx, start, effects).seen == {}
    ensures WalkEffects(ctx, start, effects).out == start.out + SumOver(effects, LeavingOf(ctx))
  {
    hide SumOver;
    if effects == [] {
      SumZero([], LeavingOf(ctx));
    } else {
      var n := |effects| - 1;
      WalkKeepsStart(ctx, start, effects[..n]);
      LeavingIsSeen(ctx, start, effects[..n]);
      SumLast(effects, n, LeavingOf(ctx));
      assert effects[..n + 1] == effects;
    }
  }

  /** Trades come in activities of their own, which move no units otherwise. */
  ghost predicate TradesDoNotMove(ctx: Context, effects: seq<Effect>) {
    forall i :: 0 <= i < |effects| && IsTradeOf(effects[i], ctx.holding) ==> !effects[i].positionTransfer
  }

  lemma {:induction false} OutIsLeaving(ctx: Context, start: Walk, effects: seq<Effect>)
    requires start.Walk? && WalkEffects(ctx, start, effects).Walk? && TradesDoNotMove(ctx, effects)
    ensures WalkEffects(ctx, start, effects).out == start.out + SumOver(effects, LeavingOf(ctx))
  {
    hide SumOver;
    if effects == [] {
      SumZero([], LeavingOf(ctx));
    } else {
      var n := |effects| - 1;
      OutIsLeaving(ctx, start, effects[..n]);
      SumLast(effects, n, LeavingOf(ctx));
      assert effects[..n + 1] == effects;
    }
  }

  /** What a unit of a segment was worth where the segment began. */
  function UnitOf(ctx: Context, s: Segment): real {
    s.price * Factor(ctx, s.rate)
  }

  lemma ZeroProduct(x: real, y: real)
    ensures x * y == 0.0 <==> x == 0.0 || y == 0.0
  {
    if x != 0.0 && y != 0.0 { assert x * y / y == x; }
  }

  /** A day that reconciles, is counted at its worth and does not read as a split leaves exactly the
      distortion of what left. */
  lemma ReconciledDayLeaves(ctx: Context, previous: Item, current: Item, effects: seq<Effect>)
    requires PathDay(ctx, previous, current, effects) && !ReadsAsSplit(ctx, previous, current, effects)
    requires CountedAtWorth(ctx, OpeningWalk(ctx, previous), effects, CloseUnit(ctx, current), OpenUnit(ctx, previous))
    requires WalkEffects(ctx, OpeningWalk(ctx, previous), effects).expected == InferredQuantity(current)
    ensures var b := HoldingBridge(ctx, previous, current, effects);
            var w := WalkEffects(ctx, OpeningWalk(ctx, previous), effects);
            ItemValue(ctx, current) - ItemValue(ctx, previous) - SumOver(effects, Counted()) - b.price - b.fx
            == LeavingDistortion(ctx, w, CloseUnit(ctx, current), OpenUnit(ctx, previous))
  {
    hide HoldingBridge, ReadsAsSplit, IsRestatement, SumOver, ItemValue, InferredQuantity, CountedAtWorth, CloseUnit,
         OpenUnit, WalkEffects, FinalSegments, Factor, SplitDistortion, LeavingDistortion, Counted;
    var start := OpeningWalk(ctx, previous);
    var a := CloseUnit(ctx, current);
    HoldingUnexplained(ctx, previous, current, effects);
    assert effects[..|effects|] == effects;
    NoShortfall(ctx, start, effects, |effects|, a, OpenUnit(ctx, previous));
    SameFactor(a, InferredQuantity(current) - WalkEffects(ctx, start, effects).expected, 0.0);
  }

  /** There is no distortion exactly when nothing left, or what left was worth as much where it is
      marked from. */
  lemma DistortionVanishes(ctx: Context, w: Walk, a: real, o: real)
    requires w.Walk?
    ensures LeavingDistortion(ctx, w, a, o) == 0.0
            <==> w.out == 0.0 || if w.out > 0.0 && |w.segments| == 1 then UnitOf(ctx, w.segments[0]) == o else a == o
  {
    hide Factor;
    if w.out > 0.0 && |w.segments| == 1 {
      ZeroProduct(w.out, o - UnitOf(ctx, w.segments[0]));
    } else {
      ZeroProduct(w.out, o - a);
    }
  }

  lemma LoneSegmentIsOpening(ctx: Context, previous: Item, current: Item, effects: seq<Effect>)
    requires PathDay(ctx, previous, current, effects) && InferredQuantity(previous) != 0.0
    requires |WalkEffects(ctx, OpeningWalk(ctx, previous), effects).segments| == 1
    ensures UnitOf(ctx, WalkEffects(ctx, OpeningWalk(ctx, previous), effects).segments[0]) == OpenUnit(ctx, previous)
  {
    hide WalkEffects, FinalSegments, Factor;
    WalkKeepsStart(ctx, OpeningWalk(ctx, previous), effects);
    LoneOpening(ctx, previous);
  }

  /** Such a day is explained exactly when nothing left at its carrying value, or it left the
      opening position alone, or else a unit was worth at the opening what it is marked from: what
      the lone other segment began with, or the closing value beside several segments. */
  lemma ReconciledExactlyWhen(ctx: Context, previous: Item, current: Item, effects: seq<Effect>)
    requires PathDay(ctx, previous, current, effects) && !ReadsAsSplit(ctx, previous, current, effects)
    requires CountedAtWorth(ctx, OpeningWalk(ctx, previous), effects, CloseUnit(ctx, current), OpenUnit(ctx, previous))
    requires WalkEffects(ctx, OpeningWalk(ctx, previous), effects).expected == InferredQuantity(current)
    requires TradesDoNotMove(ctx, effects)
    ensures var b := HoldingBridge(ctx, previous, current, effects);
            var segments := WalkEffects(ctx, OpeningWalk(ctx, previous), effects).segments;
            var left := SumOver(effects, LeavingOf(ctx));
            b.price + b.fx + SumOver(effects, Counted()) == ItemValue(ctx, current) - ItemValue(ctx, previous)
            <==> left == 0.0
                 || if left > 0.0 && |segments| == 1
                    then InferredQuantity(previous) != 0.0 || UnitOf(ctx, segments[0]) == OpenUnit(ctx, previous)
                    else CloseUnit(ctx, current) == OpenUnit(ctx, previous)
  {
    hide HoldingBridge, ReadsAsSplit, SumOver, ItemValue, InferredQuantity, CountedAtWorth, CloseUnit, OpenUnit,
         WalkEffects, FinalSegments, UnitOf, LeavingDistortion, Counted, LeavingOf, TradesDoNotMove;
    var w := WalkEffects(ctx, OpeningWalk(ctx, previous), effects);
    PathIsWalked(ctx, previous, current, effects);
    ReconciledDayLeaves(ctx, previous, current, effects);
    DistortionVanishes(ctx, w, CloseUnit(ctx, current), OpenUnit(ctx, previous));
    OutIsLeaving(ctx, OpeningWalk(ctx, previous), effects);
    if |w.segments| == 1 && InferredQuantity(previous) != 0.0 {
      LoneSegmentIsOpening(ctx, previous, current, effects);
    }
  }

  /** What is worth counting on a day read as a split: units that left, at the closing value less
      their restated opening one. */
  function SplitCount(ctx: Context, previous: Item, current: Item, effects: seq<Effect>): real
    requires current.price.Some?
  {
    var left := SumOver(effects, LeavingOf(ctx));
    if left > 0.0 then left * (CloseUnit(ctx, current) - RestatedUnit(ctx, previous, current)) else 0.0
  }

  /** On a day read as a split, price and FX are the change in value up to what left. So the day is
      explained exactly when the day's waterfall counts no more and no less than that: nothing,
      if nothing left at its carrying value. */
  lemma SplitIsExplained(ctx: Context, previous: Item, current: Item, effects: seq<Effect>)
    requires PathDay(ctx, previous, current, effects) && ReadsAsSplit(ctx, previous, current, effects)
    ensures var b := HoldingBridge(ctx, previous, current, effects);
            var change, counted := ItemValue(ctx, current) - ItemValue(ctx, previous), SumOver(effects, Counted());
            && b.price + b.fx == change - SplitCount(ctx, previous, current, effects)
            && (b.price + b.fx + counted == change <==> counted == SplitCount(ctx, previous, current, effects))
  {
    hide WalkEffects, SumOver, IsRestatement, Shortfall, PathDay, ReadsAsSplit, Counted, Factor, ItemValue,
         InferredQuantity, CloseUnit, OpenUnit, RestatedUnit, AtClose, Cost, HoldingBridge, LeavingOf;
    PathIsWalked(ctx, previous, current, effects);
    var start := OpeningWalk(ctx, previous);
    var w := WalkEffects(ctx, start, effects);
    var a, o := CloseUnit(ctx, current), OpenUnit(ctx, previous);
    var q0, qc := InferredQuantity(previous), InferredQuantity(current);
    HoldingUnexplained(ctx, previous, current, effects);
    SplitWalksOpening(ctx, previous, current, effects);
    WalkCarriesWorth(ctx, start, effects, a, o);
    LeavingIsSeen(ctx, start, effects);
    SplitSums(w.expected, q0, qc, w.out, a, o, RestatedUnit(ctx, previous, current));
  }

  lemma PathIsWalked(ctx: Context, previous: Item, current: Item, effects: seq<Effect>)
    requires PathDay(ctx, previous, current, effects)
    ensures WalkEffects(ctx, OpeningWalk(ctx, previous), effects).Walk? && current.price.Some?
  {
  }

  lemma SplitSums(expected: real, q0: real, qc: real, out: real, a: real, o: real, restated: real)
    ensures (qc - expected) * a + expected * a - q0 * a - out * (o - a) + out * (o - restated) - (qc - q0) * a
            == out * (a - restated)
    ensures (qc - expected) * a + expected * a - q0 * a - (qc - q0) * a == 0.0
  {
    assert (qc - expected) * a == qc * a - expected * a && (qc - q0) * a == qc * a - q0 * a;
    assert out * (o - a) == out * o - out * a && out * (o - restated) == out * o - out * restated
           && out * (a - restated) == out * a - out * restated;
  }
}
